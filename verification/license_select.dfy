/**
 * The license picker (src/components/LicenseSelect.tsx): a text box whose
 * input searches licenses by name, a dropdown of the results, and the list
 * of selected license names, which belongs to the parent and changes only
 * through `onChange`.
 *
 * The selected list is a parameter of each operation and the list handed to
 * `onChange` is its result. The 300 ms debounce is not modelled: `Search` is
 * the call the timer makes once it fires.
 */
module LicenseSelect {
  import opened JsCore
  import opened Types
  import opened ApiClient

  /** The two fields of a license record the picker reads. */
  datatype License = License(id: Json, name: string)

  /** `selected.filter(l => l !== name)`: every other name, in order, duplicates kept. */
  function Removed(selected: seq<string>, name: string): (r: seq<string>)
    ensures name !in r
    ensures forall x :: x != name ==> multiset(r)[x] == multiset(selected)[x]
    ensures |r| <= |selected|
  {
    if selected == [] then []
    else
      var rest := Removed(selected[1..], name);
      assert selected == [selected[0]] + selected[1..];
      if selected[0] == name then rest else [selected[0]] + rest
  }

  /** Removing a name that is not selected changes nothing. */
  lemma {:induction false} RemovedAbsent(selected: seq<string>, name: string)
    requires name !in selected
    ensures Removed(selected, name) == selected
  {
    if selected != [] {
      RemovedAbsent(selected[1..], name);
    }
  }

  /** Removal keeps the order of what remains: it commutes with appending. */
  lemma {:induction false} RemovedAppend(a: seq<string>, b: seq<string>, name: string)
    ensures Removed(a + b, name) == Removed(a, name) + Removed(b, name)
  {
    if a != [] {
      assert (a + b)[1..] == a[1..] + b;
      RemovedAppend(a[1..], b, name);
    } else {
      assert a + b == b;
    }
  }

  /** `handleSelect`: a selected name is deselected (every copy), any other is appended. */
  function HandleSelect(selected: seq<string>, name: string): (r: seq<string>)
    ensures name in r <==> name !in selected
    ensures forall x :: x != name ==> multiset(r)[x] == multiset(selected)[x]
    ensures name !in selected ==> r == selected + [name]
    ensures name in selected ==> r == Removed(selected, name)
  {
    if name in selected then Removed(selected, name) else selected + [name]
  }

  /** Picking a name that was not selected, then picking it again, restores the list. */
  lemma SelectTwiceRestores(selected: seq<string>, name: string)
    requires name !in selected
    ensures HandleSelect(HandleSelect(selected, name), name) == selected
  {
    RemovedAppend(selected, [name], name);
    RemovedAbsent(selected, name);
  }

  /**
   * Picking a selected name twice moves it to the end of the list: the first
   * pick deselects it, the second appends it.
   */
  lemma SelectTwiceMovesLast(selected: seq<string>, name: string)
    requires name in selected
    ensures HandleSelect(HandleSelect(selected, name), name) == Removed(selected, name) + [name]
  {
  }

  /** A line of the open dropdown. */
  datatype Row = Searching | NoResults | Choice(name: string, checked: bool)

  /** `showDropdown`. */
  predicate ShowDropdown(open: bool, loading: bool, results: seq<License>, query: string) {
    open && (loading || |results| > 0 || (|Trim(query)| > 0 && !loading))
  }

  /** The rows the dropdown lists: a spinner while loading, else a no-results line or one choice per result. */
  function Rows(loading: bool, results: seq<License>, query: string, selected: seq<string>): (rows: seq<Row>)
    ensures loading ==> rows == [Searching]
    ensures !loading && results != [] ==>
              |rows| == |results|
              && forall i :: 0 <= i < |results| ==>
                   rows[i] == Choice(results[i].name, results[i].name in selected)
  {
    (if loading then [Searching] else [])
    + (if !loading && |results| == 0 && |Trim(query)| > 0 then [NoResults] else [])
    + (if !loading then seq(|results|, i requires 0 <= i < |results| => Choice(results[i].name, results[i].name in selected))
       else [])
  }

  /**
   * The dropdown never opens empty: whenever it shows, it lists a spinner, a
   * no-results line or at least one choice; and it shows exactly when it is
   * open and loading, has results, or the query is not blank.
   */
  lemma DropdownNeverEmpty(open: bool, loading: bool, results: seq<License>, query: string, selected: seq<string>)
    ensures ShowDropdown(open, loading, results, query) <==> open && (loading || results != [] || Trim(query) != "")
    ensures ShowDropdown(open, loading, results, query) ==> Rows(loading, results, query, selected) != []
    ensures !loading && results == [] && Trim(query) != "" ==> Rows(loading, results, query, selected) == [NoResults]
  {
  }

  /** What the search left in the dropdown, once the request settled. */
  function SearchResults(outcome: Settled<seq<License>>): (r: seq<License>)
    ensures outcome.Succeeded() && outcome.response.data.Some? ==> r == outcome.response.data.value
    ensures !(outcome.Succeeded() && outcome.response.data.Some?) ==> r == []
  {
    match outcome
    case Threw(_) => []
    case Resolved(res) => if res.success && res.data.Some? then res.data.value else []
  }

  /** The request `search(name)` sends: none for a blank name, else the default search for it. */
  function SearchRequest(name: string): Option<string> {
    if Trim(name) == "" then None else Some(FetchLicensesPath(name))
  }

  class LicensePicker {
    var query: string
    var results: seq<License>
    var loading: bool
    var open: bool

    constructor()
      ensures query == "" && results == [] && !loading && !open
    {
      query, results, loading, open := "", [], false, false;
    }

    /** `handleQueryChange`: the new text, and the dropdown opens. */
    method QueryChanged(value: string)
      modifies this
      ensures query == value && open && results == old(results) && loading == old(loading)
    {
      query, open := value, true;
    }

    /**
     * `search(name)`: a blank name clears the results without a request;
     * otherwise it asks for the first 20 partial matches and shows what came
     * back, or nothing when the request failed.
     */
    method Search(name: string, outcome: Settled<seq<License>>) returns (requested: Option<string>)
      modifies this
      ensures Trim(name) == "" ==> requested.None? && results == [] && loading == old(loading)
      ensures Trim(name) != "" ==> requested == Some(FetchLicensesPath(name)) && results == SearchResults(outcome) && !loading
      ensures query == old(query) && open == old(open)
    {
      requested := SearchRequest(name);
      if requested.None? {
        results := [];
        return;
      }
      loading := true;
      results := SearchResults(outcome);
      loading := false;
    }

    /** `handleSelect`: the new list for `onChange`, and the search box is cleared. */
    method Select(selected: seq<string>, name: string) returns (changed: seq<string>)
      modifies this
      ensures changed == HandleSelect(selected, name)
      ensures query == "" && results == [] && loading == old(loading) && open == old(open)
    {
      if name in selected {
        changed := Removed(selected, name);
      } else {
        changed := selected + [name];
      }
      query, results := "", [];
    }

    /** `handleRemove`: the list without that name, for `onChange`. */
    method Remove(selected: seq<string>, name: string) returns (changed: seq<string>)
      ensures changed == Removed(selected, name)
    {
      changed := Removed(selected, name);
    }

    /** A mouse press outside the picker closes the dropdown. */
    method ClickOutside()
      modifies this
      ensures !open && query == old(query) && results == old(results) && loading == old(loading)
    {
      open := false;
    }

    /** Focusing the box reopens the dropdown when there is search text. */
    method Focus()
      modifies this
      ensures open == (old(open) || Trim(old(query)) != "")
      ensures query == old(query) && results == old(results) && loading == old(loading)
    {
      if Trim(query) != "" {
        open := true;
      }
    }

    /** Whether the dropdown is shown. */
    function Showing(): bool
      reads this
    {
      ShowDropdown(open, loading, results, query)
    }
  }
}
