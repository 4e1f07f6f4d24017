/**
 * The state behind the OSS master list (src/hooks/useOssList.ts): one page
 * of masters, the search text, the review filter and paging.
 *
 * A `load` runs to completion with what the fetch returned as a parameter;
 * the reload React performs after the search, the filter or the page changed
 * is a separate `Load`.
 */
module UseOssList {
  import opened JsCore
  import opened Types
  import opened ApiClient

  const DefaultPageSize := 20
  const ListLoadFailed := "조회 실패"

  /** The hook's state record. */
  datatype ListState = ListState(
    data: seq<OssMaster>,
    loading: bool,
    error: Option<string>,
    totalCount: int,
    currentPage: int,
    pageSize: int,
    searchQuery: string,
    reviewFilter: ReviewFilter)

  /** The first render: page 1 of 20, no search text, every status, nothing loaded. */
  const Initial := ListState([], false, None, 0, 1, DefaultPageSize, "", AllStatuses)

  /** `setSearchQuery`: the new text, back to page 1. */
  function WithSearchQuery(s: ListState, query: string): ListState {
    s.(searchQuery := query, currentPage := 1)
  }

  /** `setReviewFilter`: the new filter, back to page 1. */
  function WithFilter(s: ListState, filter: ReviewFilter): ListState {
    s.(reviewFilter := filter, currentPage := 1)
  }

  /** `setCurrentPage`: only the page changes. */
  function WithPage(s: ListState, page: int): ListState {
    s.(currentPage := page)
  }

  /** The parameter record of the list request: empty search text and an empty filter are left undefined. */
  function ListEntries(s: ListState): seq<Entry> {
    [("ossName", Defined(s.searchQuery)), ("reviewed", Defined(s.reviewFilter.Code())),
     ("page", Some(JNum(s.currentPage))), ("size", Some(JNum(s.pageSize)))]
  }

  /** The request `load` sends for a state. */
  function ListRequest(s: ListState): string {
    OssListPath(ListEntries(s))
  }

  /**
   * The list request carries the search text only when there is one, the
   * status only when a filter is set, then the page and the page size.
   */
  lemma ListQuery(s: ListState)
    ensures SentPairs(ListEntries(s))
            == (if s.searchQuery != "" then [("ossName", s.searchQuery)] else [])
               + (if s.reviewFilter.Only? then [("reviewed", s.reviewFilter.status.Code())] else [])
               + [("page", IntToString(s.currentPage)), ("size", IntToString(s.pageSize))]
  {
    SentPairsOfFour(("ossName", Defined(s.searchQuery)), ("reviewed", Defined(s.reviewFilter.Code())),
                    ("page", Some(JNum(s.currentPage))), ("size", Some(JNum(s.pageSize))));
    SentText("ossName", s.searchQuery);
    SentFilter(s.reviewFilter);
    SentNumber("page", s.currentPage);
    SentNumber("size", s.pageSize);
    assert [("page", IntToString(s.currentPage))] + [("size", IntToString(s.pageSize))]
        == [("page", IntToString(s.currentPage)), ("size", IntToString(s.pageSize))];
  }

  /** `load` after its first update (busy, error cleared), once the fetch settled. */
  function AfterLoad(s: ListState, outcome: Settled<seq<OssMaster>>): ListState {
    var busy := s.(loading := true, error := None);
    match outcome
    case Threw(e) => busy.(loading := false, error := Some(ThrownMessage(e)))
    case Resolved(result) =>
      if !result.success then busy.(loading := false, error := Some(result.error.GetOr(ListLoadFailed)))
      else
        busy.(loading := false, data := result.data.GetOr([]),
              totalCount := if result.meta.Some? then result.meta.value.totalCount else 0)
  }

  /**
   * A load never touches the controls and always ends not loading; it
   * reports an error exactly when it failed, and only a success replaces the
   * page of masters and the total.
   */
  lemma LoadEffects(s: ListState, outcome: Settled<seq<OssMaster>>)
    ensures var t := AfterLoad(s, outcome);
            !t.loading && t.currentPage == s.currentPage && t.pageSize == s.pageSize
            && t.searchQuery == s.searchQuery && t.reviewFilter == s.reviewFilter
    ensures var t := AfterLoad(s, outcome);
            (t.error.None? <==> outcome.Succeeded())
            && (outcome.Succeeded() ==>
                  t.data == outcome.response.data.GetOr([])
                  && t.totalCount == (if outcome.response.meta.Some? then outcome.response.meta.value.totalCount else 0))
            && (!outcome.Succeeded() ==> t.data == s.data && t.totalCount == s.totalCount)
  {
  }

  /** Loading twice with the same answer ends as loading once. */
  lemma LoadIdempotent(s: ListState, outcome: Settled<seq<OssMaster>>)
    ensures AfterLoad(AfterLoad(s, outcome), outcome) == AfterLoad(s, outcome)
  {
  }

  class OssListHook {
    var data: seq<OssMaster>
    var loading: bool
    var error: Option<string>
    var totalCount: int
    var currentPage: int
    var pageSize: int
    var searchQuery: string
    var reviewFilter: ReviewFilter

    /** The state record as the page reads it. */
    function State(): ListState
      reads this
    {
      ListState(data, loading, error, totalCount, currentPage, pageSize, searchQuery, reviewFilter)
    }

    constructor()
      ensures State() == Initial
    {
      data, loading, error, totalCount := [], false, None, 0;
      currentPage, pageSize, searchQuery, reviewFilter := 1, DefaultPageSize, "", AllStatuses;
    }

    /** `setSearchQuery`. */
    method SetSearchQuery(query: string)
      modifies this
      ensures State() == WithSearchQuery(old(State()), query)
    {
      searchQuery, currentPage := query, 1;
    }

    /** `setReviewFilter`. */
    method SetReviewFilter(filter: ReviewFilter)
      modifies this
      ensures State() == WithFilter(old(State()), filter)
    {
      reviewFilter, currentPage := filter, 1;
    }

    /** `setCurrentPage`. */
    method SetCurrentPage(page: int)
      modifies this
      ensures State() == WithPage(old(State()), page)
    {
      currentPage := page;
    }

    /** `load` (and `refresh`): with a token, fetch the page the controls describe. */
    method Load(token: Option<string>, outcome: Settled<seq<OssMaster>>) returns (requested: Option<string>)
      modifies this
      ensures !Truthy(token) ==> requested.None? && State() == old(State())
      ensures Truthy(token) ==> requested == Some(ListRequest(old(State())))
                                && State() == AfterLoad(old(State()), outcome)
    {
      if !Truthy(token) {
        return None;
      }
      requested := Some(ListRequest(State()));
      Settle(outcome);
    }

    /** The updates of `load` from setting the busy flag to clearing it. */
    method Settle(outcome: Settled<seq<OssMaster>>)
      modifies this
      ensures State() == AfterLoad(old(State()), outcome)
    {
      loading, error := true, None;
      match outcome {
        case Threw(e) =>
          loading, error := false, Some(ThrownMessage(e));
        case Resolved(result) =>
          if !result.success {
            loading, error := false, Some(result.error.GetOr(ListLoadFailed));
          } else {
            loading, data := false, result.data.GetOr([]);
            totalCount := if result.meta.Some? then result.meta.value.totalCount else 0;
          }
      }
    }
  }
}
