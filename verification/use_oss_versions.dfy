/**
 * The state behind the version list of one OSS master
 * (src/hooks/useOssVersions.ts): the master record, the current page of
 * versions, paging, the review filter, the selected version ids and the busy
 * and error flags, with the transitions the page's controls trigger.
 *
 * Each transition runs to completion: what its awaited API calls returned is
 * a parameter, and its state updates are applied in order. The reload React
 * performs after the page or the filter changed is a separate `Load`.
 */
module UseOssVersions {
  import opened JsCore
  import opened Types
  import opened ApiClient

  const DefaultPageSize := 20
  const MasterLoadFailed := "OSS 정보 조회 실패"
  const VersionsLoadFailed := "버전 목록 조회 실패"
  const MasterReviewFailed := "OSS 리뷰 업데이트 실패"
  const MasterSaveFailed := "OSS 업데이트 실패"
  const VersionSaveFailed := "버전 업데이트 실패"
  const ReviewUpdateFailed := "업데이트 실패"
  const BulkFailed := "일괄 처리 실패"

  /** The hook's state record. */
  datatype VersionsState = VersionsState(
    ossMaster: Option<OssMaster>,
    versions: seq<OssVersion>,
    loading: bool,
    error: Option<string>,
    totalCount: int,
    currentPage: int,
    pageSize: int,
    selectedIds: set<int>,
    updating: bool,
    reviewFilter: ReviewFilter)

  /** A PUT the hook sends: the client path of the record and the record written there. */
  datatype Put<T> = Put(path: string, body: T)

  /** The first render: page 1 of 20, unreviewed versions only, nothing loaded or selected. */
  const Initial := VersionsState(None, [], false, None, 0, 1, DefaultPageSize, {}, false, Only(N))

  // ---------------------------------------------------------------------------
  // Selection

  /** `toggleSelection`: the selection with `id` flipped. */
  function Toggled(selected: set<int>, id: int): (r: set<int>)
    ensures id in r <==> id !in selected
    ensures forall x :: x != id ==> (x in r <==> x in selected)
  {
    if id in selected then selected - {id} else selected + {id}
  }

  /** The ids of the versions on the page. */
  function PageIds(versions: seq<OssVersion>): (ids: set<int>)
    ensures forall id :: id in ids <==> exists i :: 0 <= i < |versions| && versions[i].ossVersionId == id
  {
    set i | 0 <= i < |versions| :: versions[i].ossVersionId
  }

  /** The page is not empty and every version on it is selected. */
  predicate AllSelected(versions: seq<OssVersion>, selected: set<int>) {
    |versions| > 0 && forall i :: 0 <= i < |versions| ==> versions[i].ossVersionId in selected
  }

  /** `toggleSelectAll`: clear a full selection, otherwise select exactly the page. */
  function SelectAllToggled(versions: seq<OssVersion>, selected: set<int>): set<int> {
    if AllSelected(versions, selected) then {} else PageIds(versions)
  }

  /**
   * On a non-empty page, select-all alternates: it selects the whole page
   * exactly when the page was not fully selected before, and what it selects
   * is always either nothing or exactly the page.
   */
  lemma SelectAllFlips(versions: seq<OssVersion>, selected: set<int>)
    requires versions != []
    ensures AllSelected(versions, SelectAllToggled(versions, selected)) <==> !AllSelected(versions, selected)
    ensures SelectAllToggled(versions, selected) == {} || SelectAllToggled(versions, selected) == PageIds(versions)
  {
    if !AllSelected(versions, selected) {
      assert forall i :: 0 <= i < |versions| ==> versions[i].ossVersionId in PageIds(versions);
    } else {
      assert versions[0].ossVersionId !in SelectAllToggled(versions, selected);
    }
  }

  /** `selectUnreviewed`: the ids of the page's versions whose status is `N`. */
  function UnreviewedIds(versions: seq<OssVersion>): (ids: set<int>)
    ensures forall id :: id in ids <==>
              exists i :: 0 <= i < |versions| && versions[i].ossVersionId == id && versions[i].reviewed == N
    ensures ids <= PageIds(versions)
  {
    set i | 0 <= i < |versions| && versions[i].reviewed == N :: versions[i].ossVersionId
  }

  // ---------------------------------------------------------------------------
  // Paging and filtering

  /** `setCurrentPage`: the new page, with the selection cleared. */
  function WithPage(s: VersionsState, page: int): VersionsState {
    s.(currentPage := page, selectedIds := {})
  }

  /** `setReviewFilter`: the new filter, back to page 1, with the selection cleared. */
  function WithFilter(s: VersionsState, filter: ReviewFilter): VersionsState {
    s.(reviewFilter := filter, currentPage := 1, selectedIds := {})
  }

  // ---------------------------------------------------------------------------
  // Loading

  /** What the two fetches of `load` did together: both resolved, or one of them threw. */
  datatype LoadOutcome =
    | Loaded(master: ApiResponse<OssMaster>, list: ApiResponse<seq<OssVersion>>)
    | LoadThrew(error: Option<string>)
  {
    predicate Succeeded() {
      Loaded? && master.success && list.success
    }
  }

  /** The parameter record of the version-list request: an empty filter is left undefined. */
  function VersionListEntries(ossMasterId: int, filter: ReviewFilter, page: int, size: int): seq<Entry> {
    [("ossMasterId", Some(JNum(ossMasterId))), ("reviewed", Defined(filter.Code())),
     ("page", Some(JNum(page))), ("size", Some(JNum(size)))]
  }

  /** The two requests `load` sends for a state: the master, and the page of versions. */
  function LoadRequests(ossMasterId: int, s: VersionsState): seq<string> {
    [OssDetailPath(ossMasterId), OssVersionsPath(VersionListEntries(ossMasterId, s.reviewFilter, s.currentPage, s.pageSize))]
  }

  /**
   * The version-list request carries the master id, the status only when a
   * filter is set, the page and the page size, in that order.
   */
  lemma VersionListQuery(ossMasterId: int, filter: ReviewFilter, page: int, size: int)
    ensures SentPairs(VersionListEntries(ossMasterId, filter, page, size))
            == [("ossMasterId", IntToString(ossMasterId))]
               + (if filter.Only? then [("reviewed", filter.status.Code())] else [])
               + [("page", IntToString(page)), ("size", IntToString(size))]
  {
    SentPairsOfFour(("ossMasterId", Some(JNum(ossMasterId))), ("reviewed", Defined(filter.Code())),
                    ("page", Some(JNum(page))), ("size", Some(JNum(size))));
    SentNumber("ossMasterId", ossMasterId);
    SentFilter(filter);
    SentNumber("page", page);
    SentNumber("size", size);
    assert [("page", IntToString(page))] + [("size", IntToString(size))]
        == [("page", IntToString(page)), ("size", IntToString(size))];
  }

  /** `load` after its first update (busy, error cleared), once both fetches settled. */
  function AfterLoad(s: VersionsState, outcome: LoadOutcome): VersionsState {
    var busy := s.(loading := true, error := None);
    match outcome
    case LoadThrew(e) => busy.(loading := false, error := Some(ThrownMessage(e)))
    case Loaded(master, list) =>
      if !master.success then
        busy.(loading := false, error := Some(master.error.GetOr(MasterLoadFailed)))
      else if !list.success then
        busy.(loading := false, ossMaster := master.data, error := Some(list.error.GetOr(VersionsLoadFailed)))
      else
        busy.(loading := false, ossMaster := master.data, versions := list.data.GetOr([]),
              totalCount := if list.meta.Some? then list.meta.value.totalCount else 0,
              selectedIds := {})
  }

  /**
   * A load never touches paging, the filter or the busy flag and always ends
   * not loading. It reports an error exactly when it did not fully succeed;
   * only a full success replaces the versions and the total and clears the
   * selection, and a failed master fetch leaves the master as it was too.
   */
  lemma LoadEffects(s: VersionsState, outcome: LoadOutcome)
    ensures var t := AfterLoad(s, outcome);
            !t.loading && t.currentPage == s.currentPage && t.pageSize == s.pageSize
            && t.reviewFilter == s.reviewFilter && t.updating == s.updating
    ensures var t := AfterLoad(s, outcome);
            (t.error.None? <==> outcome.Succeeded())
            && (outcome.Succeeded() ==>
                  t.versions == outcome.list.data.GetOr([]) && t.selectedIds == {}
                  && t.ossMaster == outcome.master.data
                  && t.totalCount == (if outcome.list.meta.Some? then outcome.list.meta.value.totalCount else 0))
            && (!outcome.Succeeded() ==>
                  t.versions == s.versions && t.selectedIds == s.selectedIds && t.totalCount == s.totalCount)
            && (outcome.Loaded? && !outcome.master.success ==> t.ossMaster == s.ossMaster)
  {
  }

  // ---------------------------------------------------------------------------
  // Updating one version

  /** `prev.versions.map(v => v.oss_version_id === id ? { ...v, ...patch } : v)`. */
  function PatchWhere(versions: seq<OssVersion>, id: int, patch: VersionPatch): (r: seq<OssVersion>)
    ensures |r| == |versions|
    ensures forall i :: 0 <= i < |versions| && versions[i].ossVersionId != id ==> r[i] == versions[i]
    ensures forall i :: 0 <= i < |versions| && versions[i].ossVersionId == id ==> r[i] == MergeVersion(versions[i], patch)
  {
    seq(|versions|, i requires 0 <= i < |versions| =>
      if versions[i].ossVersionId == id then MergeVersion(versions[i], patch) else versions[i])
  }

  /** `state.versions.find(v => v.oss_version_id === id)`: the first version with that id. */
  function FindVersion(versions: seq<OssVersion>, id: int): (r: Option<OssVersion>)
    ensures r.None? <==> forall i :: 0 <= i < |versions| ==> versions[i].ossVersionId != id
    ensures r.Some? ==> r.value.ossVersionId == id && r.value in versions
    ensures r.Some? ==> exists i :: 0 <= i < |versions| && versions[i] == r.value
                                    && forall j :: 0 <= j < i ==> versions[j].ossVersionId != id
  {
    if versions == [] then None
    else if versions[0].ossVersionId == id then Some(versions[0])
    else
      var r := FindVersion(versions[1..], id);
      assert forall i :: 1 <= i < |versions| ==> versions[i] == versions[1..][i - 1];
      assert r.Some? ==> exists i :: 0 <= i < |versions| && versions[i] == r.value
                                     && forall j :: 0 <= j < i ==> versions[j].ossVersionId != id by {
        if r.Some? {
          var k :| 0 <= k < |versions[1..]| && versions[1..][k] == r.value
                   && forall j :: 0 <= j < k ==> versions[1..][j].ossVersionId != id;
          assert versions[k + 1] == r.value;
        }
      }
      r
  }

  /**
   * `Array.from(ids)`: every id of the set exactly once. The order, which is
   * insertion order in JavaScript, is left open.
   */
  method ArrayFrom(ids: set<int>) returns (r: seq<int>)
    ensures multiset(r) == multiset(ids)
  {
    r := [];
    var rest := ids;
    while rest != {}
      invariant rest <= ids
      invariant multiset(r) + multiset(rest) == multiset(ids)
      decreases |rest|
    {
      assert (forall y :: y !in rest) ==> rest == {};
      var x :| x in rest;
      r := r + [x];
      rest := rest - {x};
    }
  }

  /**
   * Marking a version reviewed takes its id out of the unreviewed ones and
   * leaves the rest; marking it unreviewed adds its id when it is on the page.
   * Either way the page keeps the same ids, so the selection stays meaningful.
   */
  lemma {:induction false} ReviewChangesUnreviewed(versions: seq<OssVersion>, id: int, reviewed: ReviewStatus)
    ensures var r := PatchWhere(versions, id, ReviewedPatch(reviewed));
            PageIds(r) == PageIds(versions)
            && UnreviewedIds(r) == (if reviewed == Y then UnreviewedIds(versions) - {id}
                                    else UnreviewedIds(versions) + (PageIds(versions) * {id}))
  {
    var r := PatchWhere(versions, id, ReviewedPatch(reviewed));
    forall i | 0 <= i < |versions|
      ensures r[i].ossVersionId == versions[i].ossVersionId
      ensures r[i].reviewed == (if versions[i].ossVersionId == id then reviewed else versions[i].reviewed)
    {
      ReviewedPatchOnlyStatus(versions[i], reviewed);
    }
    assert PageIds(r) == PageIds(versions);
  }

  /** What a version update did once the version was found and the PUT settled. */
  function AfterVersionUpdate(s: VersionsState, id: int, patch: VersionPatch, fallback: string,
                              outcome: Settled<OssVersion>): VersionsState
  {
    match outcome
    case Threw(e) => s.(updating := false, error := Some(ThrownMessage(e)))
    case Resolved(result) =>
      if !result.success then s.(updating := false, error := Some(result.error.GetOr(fallback)))
      else s.(updating := false, versions := PatchWhere(s.versions, id, patch))
  }

  /**
   * Any version update, a save as well as a review: a success merges the patch
   * into exactly the versions with that id and keeps the error; a failure keeps
   * the versions and reports the thrown message, or the reply's error with the
   * operation's own message as fallback. Nothing but the versions, the error
   * and the busy flag changes, and the hook ends not busy.
   */
  lemma VersionUpdateAnyPatch(s: VersionsState, id: int, patch: VersionPatch, fallback: string,
                              outcome: Settled<OssVersion>)
    ensures var t := AfterVersionUpdate(s, id, patch, fallback, outcome);
            !t.updating && t.(versions := s.versions, error := s.error, updating := s.updating) == s
    ensures var t := AfterVersionUpdate(s, id, patch, fallback, outcome);
            outcome.Succeeded() ==>
              t.error == s.error && |t.versions| == |s.versions|
              && forall i :: 0 <= i < |s.versions| ==>
                   t.versions[i] == (if s.versions[i].ossVersionId == id then MergeVersion(s.versions[i], patch)
                                     else s.versions[i])
    ensures var t := AfterVersionUpdate(s, id, patch, fallback, outcome);
            outcome.Threw? ==> t.versions == s.versions && t.error == Some(ThrownMessage(outcome.error))
    ensures var t := AfterVersionUpdate(s, id, patch, fallback, outcome);
            outcome.Resolved? && !outcome.response.success ==>
              t.versions == s.versions && t.error == Some(outcome.response.error.GetOr(fallback))
  {
  }

  /**
   * A successful update changes only the versions with that id, and a review
   * update only their status; a failed one leaves the versions alone and
   * reports an error. Nothing but the versions, the error and the busy flag
   * ever changes.
   */
  lemma VersionUpdateEffects(s: VersionsState, id: int, reviewed: ReviewStatus, outcome: Settled<OssVersion>)
    ensures var t := AfterVersionUpdate(s, id, ReviewedPatch(reviewed), ReviewUpdateFailed, outcome);
            !t.updating && t.(versions := s.versions, error := s.error, updating := s.updating) == s
    ensures var t := AfterVersionUpdate(s, id, ReviewedPatch(reviewed), ReviewUpdateFailed, outcome);
            outcome.Succeeded() ==>
              t.error == s.error && |t.versions| == |s.versions|
              && forall i :: 0 <= i < |s.versions| ==>
                   t.versions[i] == (if s.versions[i].ossVersionId == id then s.versions[i].(reviewed := reviewed)
                                     else s.versions[i])
    ensures var t := AfterVersionUpdate(s, id, ReviewedPatch(reviewed), ReviewUpdateFailed, outcome);
            !outcome.Succeeded() ==> t.versions == s.versions && t.error.Some?
  {
    var t := AfterVersionUpdate(s, id, ReviewedPatch(reviewed), ReviewUpdateFailed, outcome);
    if outcome.Succeeded() {
      forall i | 0 <= i < |s.versions| && s.versions[i].ossVersionId == id
        ensures t.versions[i] == s.versions[i].(reviewed := reviewed)
      {
        ReviewedPatchOnlyStatus(s.versions[i], reviewed);
      }
    }
  }

  // ---------------------------------------------------------------------------
  // Updating the master

  /** What a master update did once the PUT settled. */
  function AfterMasterUpdate(s: VersionsState, patch: MasterPatch, fallback: string,
                             outcome: Settled<OssMaster>): VersionsState
    requires s.ossMaster.Some?
  {
    match outcome
    case Threw(e) => s.(updating := false, error := Some(ThrownMessage(e)))
    case Resolved(result) =>
      if !result.success then s.(updating := false, error := Some(result.error.GetOr(fallback)))
      else s.(updating := false, ossMaster := Some(MergeMaster(s.ossMaster.value, patch)))
  }

  /** The patch `{ reviewed }` for a master. */
  function MasterReviewedPatch(reviewed: ReviewStatus): MasterPatch {
    NoMasterChange.(reviewed := Some(reviewed))
  }

  // ---------------------------------------------------------------------------
  // Bulk review

  /** `${succeeded}건 성공, ${failed}건 실패`. */
  function BulkReport(r: BulkResult): string {
    IntToString(r.succeeded) + "건 성공, " + IntToString(r.failed) + "건 실패"
  }

  /** The bulk call reported failed items. */
  predicate ReportsFailures(outcome: Settled<BulkResult>) {
    outcome.Succeeded() && outcome.response.data.Some? && outcome.response.data.value.failed > 0
  }

  /**
   * `bulkUpdateReview` as written, once the bulk call settled: on success it
   * records the failure report, then awaits `load`, whose first update clears
   * the error again.
   */
  function AfterBulkUpdate(s: VersionsState, outcome: Settled<BulkResult>, reload: LoadOutcome): VersionsState {
    match outcome
    case Threw(e) => s.(updating := false, error := Some(ThrownMessage(e)))
    case Resolved(result) =>
      if !result.success then s.(updating := false, error := Some(result.error.GetOr(BulkFailed)))
      else
        var reported := if ReportsFailures(outcome) then s.(updating := false, error := Some(BulkReport(result.data.value)))
                        else s.(updating := false);
        AfterLoad(reported, reload)
  }

  /**
   * As written, the report of failed items is never seen: after a successful
   * bulk call the final state is the same whether the call reported failures
   * or not, and after a successful reload the error is cleared.
   */
  lemma BulkReportLost(s: VersionsState, result: ApiResponse<BulkResult>, reload: LoadOutcome)
    requires result.success && result.data.Some? && result.data.value.failed > 0
    ensures AfterBulkUpdate(s, Resolved(result), reload)
            == AfterBulkUpdate(s, Resolved(result.(data := None)), reload)
    ensures reload.Succeeded() ==> AfterBulkUpdate(s, Resolved(result), reload).error.None?
  {
    LoadEffects(s.(updating := false), reload);
  }

  /** The intended behaviour: reload first, then report the failed items. */
  function AfterBulkUpdateReported(s: VersionsState, outcome: Settled<BulkResult>, reload: LoadOutcome): VersionsState {
    match outcome
    case Threw(e) => s.(updating := false, error := Some(ThrownMessage(e)))
    case Resolved(result) =>
      if !result.success then s.(updating := false, error := Some(result.error.GetOr(BulkFailed)))
      else
        var reloaded := AfterLoad(s.(updating := false), reload);
        if ReportsFailures(outcome) then reloaded.(error := Some(BulkReport(result.data.value))) else reloaded
  }

  /**
   * With the report written after the reload, a bulk call that reports
   * failed items always leaves its report as the error, and otherwise the
   * result is exactly that of the code as written.
   */
  lemma BulkReportKept(s: VersionsState, outcome: Settled<BulkResult>, reload: LoadOutcome)
    ensures ReportsFailures(outcome) ==>
              AfterBulkUpdateReported(s, outcome, reload).error
              == Some(BulkReport(outcome.response.data.value))
    ensures !ReportsFailures(outcome) ==>
              AfterBulkUpdateReported(s, outcome, reload) == AfterBulkUpdate(s, outcome, reload)
    ensures AfterBulkUpdateReported(s, outcome, reload).(error := None)
            == AfterBulkUpdate(s, outcome, reload).(error := None)
  {
    if outcome.Resolved? && outcome.response.success {
      LoadEffects(s.(updating := false), reload);
      if ReportsFailures(outcome) {
        var r := outcome.response;
        BulkReportLost(s, r, reload);
        assert AfterBulkUpdate(s, outcome, reload)
            == AfterLoad(s.(updating := false, error := Some(BulkReport(r.data.value))), reload);
        assert AfterLoad(s.(updating := false, error := Some(BulkReport(r.data.value))), reload)
            == AfterLoad(s.(updating := false), reload);
      }
    }
  }

  // ---------------------------------------------------------------------------
  // The hook

  class OssVersionsHook {
    const ossMasterId: int
    var ossMaster: Option<OssMaster>
    var versions: seq<OssVersion>
    var loading: bool
    var error: Option<string>
    var totalCount: int
    var currentPage: int
    var pageSize: int
    var selectedIds: set<int>
    var updating: bool
    var reviewFilter: ReviewFilter

    /** The state record as the page reads it. */
    function State(): VersionsState
      reads this
    {
      VersionsState(ossMaster, versions, loading, error, totalCount, currentPage, pageSize,
                    selectedIds, updating, reviewFilter)
    }

    constructor(ossMasterId: int)
      ensures this.ossMasterId == ossMasterId && State() == Initial
    {
      this.ossMasterId := ossMasterId;
      ossMaster, versions, loading, error, totalCount := None, [], false, None, 0;
      currentPage, pageSize, selectedIds, updating, reviewFilter := 1, DefaultPageSize, {}, false, Only(N);
    }

    /** `setCurrentPage`. */
    method SetCurrentPage(page: int)
      modifies this
      ensures State() == WithPage(old(State()), page)
    {
      currentPage, selectedIds := page, {};
    }

    /** `setReviewFilter`. */
    method SetReviewFilter(filter: ReviewFilter)
      modifies this
      ensures State() == WithFilter(old(State()), filter)
    {
      reviewFilter, currentPage, selectedIds := filter, 1, {};
    }

    /** `toggleSelection`: copy the set, then delete or add the id. */
    method ToggleSelection(id: int)
      modifies this
      ensures State() == old(State()).(selectedIds := Toggled(old(selectedIds), id))
    {
      var next := selectedIds;
      if id in next {
        next := next - {id};
      } else {
        next := next + {id};
      }
      selectedIds := next;
    }

    /** `toggleSelectAll`. */
    method ToggleSelectAll()
      modifies this
      ensures State() == old(State()).(selectedIds := SelectAllToggled(old(versions), old(selectedIds)))
    {
      var allSelected := |versions| > 0;
      var i := 0;
      while i < |versions| && allSelected
        invariant 0 <= i <= |versions|
        invariant allSelected <==> |versions| > 0 && forall j :: 0 <= j < i ==> versions[j].ossVersionId in selectedIds
      {
        allSelected := versions[i].ossVersionId in selectedIds;
        i := i + 1;
      }
      if allSelected {
        selectedIds := {};
      } else {
        selectedIds := PageIds(versions);
      }
    }

    /** `selectUnreviewed`. */
    method SelectUnreviewed()
      modifies this
      ensures State() == old(State()).(selectedIds := UnreviewedIds(old(versions)))
    {
      selectedIds := UnreviewedIds(versions);
    }

    /** `load` (and `refresh`): with a token, fetch the master and the page of versions. */
    method Load(token: Option<string>, outcome: LoadOutcome) returns (requested: seq<string>)
      modifies this
      ensures !Truthy(token) ==> requested == [] && State() == old(State())
      ensures Truthy(token) ==> requested == LoadRequests(ossMasterId, old(State()))
                                && State() == AfterLoad(old(State()), outcome)
    {
      if !Truthy(token) {
        return [];
      }
      requested := LoadRequests(ossMasterId, State());
      Settle(outcome);
    }

    /** The updates of `load` from setting the busy flag to clearing it. */
    method Settle(outcome: LoadOutcome)
      modifies this
      ensures State() == AfterLoad(old(State()), outcome)
    {
      loading, error := true, None;
      match outcome {
        case LoadThrew(e) =>
          loading, error := false, Some(ThrownMessage(e));
        case Loaded(master, list) =>
          if !master.success {
            loading, error := false, Some(master.error.GetOr(MasterLoadFailed));
          } else if !list.success {
            loading, ossMaster, error := false, master.data, Some(list.error.GetOr(VersionsLoadFailed));
          } else {
            loading, ossMaster, versions := false, master.data, list.data.GetOr([]);
            totalCount := if list.meta.Some? then list.meta.value.totalCount else 0;
            selectedIds := {};
          }
      }
    }

    /**
     * The shared body of `updateReviewStatus` and `saveVersion`: busy, find the
     * version, PUT the merged record, apply the patch on success. When the id
     * is not on the page it returns early and stays busy.
     */
    method UpdateVersion(token: Option<string>, id: int, patch: VersionPatch, fallback: string,
                         outcome: Settled<OssVersion>) returns (sent: Option<Put<OssVersion>>)
      modifies this
      ensures !Truthy(token) ==> sent.None? && State() == old(State())
      ensures Truthy(token) && FindVersion(old(versions), id).None? ==>
                sent.None? && State() == old(State()).(updating := true)
      ensures Truthy(token) && FindVersion(old(versions), id).Some? ==>
                sent == Some(Put(OssVersionPath(id), MergeVersion(FindVersion(old(versions), id).value, patch)))
                && State() == AfterVersionUpdate(old(State()), id, patch, fallback, outcome)
    {
      if !Truthy(token) {
        return None;
      }
      updating := true;
      var version := FindVersion(versions, id);
      if version.None? {
        return None;
      }
      sent := Some(Put(OssVersionPath(id), MergeVersion(version.value, patch)));
      match outcome {
        case Threw(e) =>
          updating, error := false, Some(ThrownMessage(e));
        case Resolved(result) =>
          if !result.success {
            updating, error := false, Some(result.error.GetOr(fallback));
          } else {
            updating, versions := false, PatchWhere(versions, id, patch);
          }
      }
    }

    /** `updateReviewStatus(id, reviewed)`: PUT `{ ...version, reviewed }`. */
    method UpdateReviewStatus(token: Option<string>, id: int, reviewed: ReviewStatus,
                              outcome: Settled<OssVersion>) returns (sent: Option<Put<OssVersion>>)
      modifies this
      ensures !Truthy(token) ==> sent.None? && State() == old(State())
      ensures Truthy(token) && FindVersion(old(versions), id).None? ==>
                sent.None? && State() == old(State()).(updating := true)
      ensures Truthy(token) && FindVersion(old(versions), id).Some? ==>
                sent == Some(Put(OssVersionPath(id), FindVersion(old(versions), id).value.(reviewed := reviewed)))
                && State() == AfterVersionUpdate(old(State()), id, ReviewedPatch(reviewed), ReviewUpdateFailed, outcome)
    {
      sent := UpdateVersion(token, id, ReviewedPatch(reviewed), ReviewUpdateFailed, outcome);
      if sent.Some? {
        ReviewedPatchOnlyStatus(FindVersion(old(versions), id).value, reviewed);
      }
    }

    /** `saveVersion(id, data)`: PUT `{ ...version, ...data }`. */
    method SaveVersion(token: Option<string>, id: int, data: VersionPatch,
                       outcome: Settled<OssVersion>) returns (sent: Option<Put<OssVersion>>)
      modifies this
      ensures !Truthy(token) ==> sent.None? && State() == old(State())
      ensures Truthy(token) && FindVersion(old(versions), id).None? ==>
                sent.None? && State() == old(State()).(updating := true)
      ensures Truthy(token) && FindVersion(old(versions), id).Some? ==>
                sent == Some(Put(OssVersionPath(id), MergeVersion(FindVersion(old(versions), id).value, data)))
                && State() == AfterVersionUpdate(old(State()), id, data, VersionSaveFailed, outcome)
    {
      sent := UpdateVersion(token, id, data, VersionSaveFailed, outcome);
    }

    /** The shared body of `updateOssMasterReview` and `saveOssMaster`. */
    method UpdateMaster(token: Option<string>, patch: MasterPatch, fallback: string,
                        outcome: Settled<OssMaster>) returns (sent: Option<Put<OssMaster>>)
      modifies this
      ensures !Truthy(token) || old(ossMaster).None? ==> sent.None? && State() == old(State())
      ensures Truthy(token) && old(ossMaster).Some? ==>
                sent == Some(Put(OssDetailPath(ossMasterId), MergeMaster(old(ossMaster).value, patch)))
                && State() == AfterMasterUpdate(old(State()), patch, fallback, outcome)
    {
      if !Truthy(token) || ossMaster.None? {
        return None;
      }
      updating := true;
      sent := Some(Put(OssDetailPath(ossMasterId), MergeMaster(ossMaster.value, patch)));
      match outcome {
        case Threw(e) =>
          updating, error := false, Some(ThrownMessage(e));
        case Resolved(result) =>
          if !result.success {
            updating, error := false, Some(result.error.GetOr(fallback));
          } else {
            updating, ossMaster := false, Some(MergeMaster(ossMaster.value, patch));
          }
      }
    }

    /** `updateOssMasterReview(reviewed)`. */
    method UpdateOssMasterReview(token: Option<string>, reviewed: ReviewStatus,
                                 outcome: Settled<OssMaster>) returns (sent: Option<Put<OssMaster>>)
      modifies this
      ensures !Truthy(token) || old(ossMaster).None? ==> sent.None? && State() == old(State())
      ensures Truthy(token) && old(ossMaster).Some? ==>
                sent == Some(Put(OssDetailPath(ossMasterId), old(ossMaster).value.(reviewed := reviewed)))
                && State() == AfterMasterUpdate(old(State()), MasterReviewedPatch(reviewed), MasterReviewFailed, outcome)
    {
      sent := UpdateMaster(token, MasterReviewedPatch(reviewed), MasterReviewFailed, outcome);
    }

    /** `saveOssMaster(data)`. */
    method SaveOssMaster(token: Option<string>, data: MasterPatch,
                         outcome: Settled<OssMaster>) returns (sent: Option<Put<OssMaster>>)
      modifies this
      ensures !Truthy(token) || old(ossMaster).None? ==> sent.None? && State() == old(State())
      ensures Truthy(token) && old(ossMaster).Some? ==>
                sent == Some(Put(OssDetailPath(ossMasterId), MergeMaster(old(ossMaster).value, data)))
                && State() == AfterMasterUpdate(old(State()), data, MasterSaveFailed, outcome)
    {
      sent := UpdateMaster(token, data, MasterSaveFailed, outcome);
    }

    /**
     * `bulkUpdateReview(reviewed)` as written: nothing without a token or a
     * selection; otherwise it sends the selected ids and, when the call
     * succeeded, reloads.
     */
    method BulkUpdateReview(token: Option<string>, reviewed: ReviewStatus, outcome: Settled<BulkResult>,
                            reload: LoadOutcome) returns (sent: Option<BulkReviewRequest>)
      modifies this
      ensures !Truthy(token) || old(selectedIds) == {} ==> sent.None? && State() == old(State())
      ensures Truthy(token) && old(selectedIds) != {} ==>
                sent.Some? && multiset(sent.value.versionIds) == multiset(old(selectedIds))
                && sent.value.reviewed == reviewed
                && State() == AfterBulkUpdate(old(State()), outcome, reload)
    {
      if !Truthy(token) || selectedIds == {} {
        return None;
      }
      updating := true;
      var ids := ArrayFrom(selectedIds);
      sent := Some(BulkReviewRequest(ids, reviewed));
      match outcome {
        case Threw(e) =>
          updating, error := false, Some(ThrownMessage(e));
        case Resolved(result) =>
          if !result.success {
            updating, error := false, Some(result.error.GetOr(BulkFailed));
            return;
          }
          if result.data.Some? && result.data.value.failed > 0 {
            updating, error := false, Some(BulkReport(result.data.value));
          } else {
            updating := false;
          }
          var _ := Load(token, reload);
      }
    }

    /** `bulkUpdateReview` with the report of failed items written after the reload. */
    method BulkUpdateReviewReported(token: Option<string>, reviewed: ReviewStatus, outcome: Settled<BulkResult>,
                                    reload: LoadOutcome) returns (sent: Option<BulkReviewRequest>)
      modifies this
      ensures !Truthy(token) || old(selectedIds) == {} ==> sent.None? && State() == old(State())
      ensures Truthy(token) && old(selectedIds) != {} ==>
                sent.Some? && multiset(sent.value.versionIds) == multiset(old(selectedIds))
                && sent.value.reviewed == reviewed
                && State() == AfterBulkUpdateReported(old(State()), outcome, reload)
    {
      if !Truthy(token) || selectedIds == {} {
        return None;
      }
      updating := true;
      var ids := ArrayFrom(selectedIds);
      sent := Some(BulkReviewRequest(ids, reviewed));
      match outcome {
        case Threw(e) =>
          updating, error := false, Some(ThrownMessage(e));
        case Resolved(result) =>
          if !result.success {
            updating, error := false, Some(result.error.GetOr(BulkFailed));
            return;
          }
          updating := false;
          var _ := Load(token, reload);
          if result.data.Some? && result.data.value.failed > 0 {
            error := Some(BulkReport(result.data.value));
          }
      }
    }
  }
}
