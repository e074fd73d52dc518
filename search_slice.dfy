/**
 * The search page's client state, `redux/slice/search.slice.js`: the three
 * result lists, the query, the kind of search, and the loading/error protocol.
 */
module SearchSlice {
  import opened Common

  /** A result document as it arrives. */
  type Doc = map<string, string>

  datatype Results = Results(posts: seq<Doc>, communities: seq<Doc>, users: seq<Doc>)

  /** The whole slice. */
  datatype SearchView = SearchView(results: Results, query: string, kind: string, loading: bool, error: Option<string>)

  const NoResults := Results([], [], [])

  class SearchState {
    var results: Results
    var query: string
    var kind: string
    var loading: bool
    var error: Option<string>

    function View(): SearchView
      reads this
    {
      SearchView(results, query, kind, loading, error)
    }

    /** The initial state: nothing found, an empty query, searching everything. */
    constructor ()
      ensures View() == SearchView(NoResults, "", "all", false, None)
    {
      results, query, kind, loading, error := NoResults, "", "all", false, None;
    }

    /** `clearSearchResults`: empty lists, an empty query and no error; the kind of search stays. */
    method ClearSearchResults()
      modifies this
      ensures View() == old(View()).(results := NoResults, query := "", error := None)
    {
      results, query, error := NoResults, "", None;
    }

    /** `clearSearchError`. */
    method ClearSearchError()
      modifies this
      ensures View() == old(View()).(error := None)
    {
      error := None;
    }

    /** `setSearchQuery`. */
    method SetSearchQuery(q: string)
      modifies this
      ensures View() == old(View()).(query := q)
    {
      query := q;
    }

    /** `setSearchType`. */
    method SetSearchType(t: string)
      modifies this
      ensures View() == old(View()).(kind := t)
    {
      kind := t;
    }

    /** `performSearch.pending`. */
    method SearchPending()
      modifies this
      ensures View() == old(View()).(loading := true, error := None)
    {
      loading, error := true, None;
    }

    /** `performSearch.fulfilled`: results, query and kind come from the
        answer; an earlier error is not cleared here. */
    method SearchDone(found: Results, q: string, t: string)
      modifies this
      ensures View() == old(View()).(loading := false, results := found, query := q, kind := t)
    {
      loading, results, query, kind := false, found, q, t;
    }

    /** `performSearch.rejected`: the previous results stay and the error is recorded. */
    method SearchRejected(message: string)
      modifies this
      ensures View() == old(View()).(loading := false, error := Some(message))
    {
      loading, error := false, Some(message);
    }
  }
}
