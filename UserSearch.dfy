/**
 * The header's user search: every keystroke records the query and, from two characters on,
 * asks the public search RPC; the dropdown lists the results.
 */
module UserSearch {
  import opened Wrappers
  import opened Strings
  import opened Types

  /** The shortest query that is sent. */
  const MinQueryLength: nat := 2

  /** One listed result. */
  datatype ResultEntry = ResultEntry(
    name: string,
    email: Option<string>,
    photoCount: int,
    photoNoun: string,
    samples: seq<SamplePhoto>,
    path: string)

  /** What the open dropdown shows. */
  datatype DropdownContent = Searching | ResultList(entries: seq<ResultEntry>) | NoUsersFound | TypeMore

  /** The route of a user's public profile. */
  function ProfilePath(userId: string): string {
    "/user/" + userId
  }

  /** A result as listed: its name, the email under it only when both names are shown, the counted noun, the samples and the route. */
  function Entry(r: SearchResult): (e: ResultEntry)
    ensures e.name == DisplayName(r)
    ensures e.email.Some? <==> Truthy(r.first_name) && Truthy(r.last_name)
    ensures e.email.Some? ==> e.email.value == r.user_email
    ensures e.photoCount == r.photo_count && (e.photoNoun == "photo" <==> r.photo_count == 1)
    ensures e.samples == SamplePreview(r.sample_photos)
    ensures |e.path| >= 6 && e.path[..6] == "/user/" && e.path[6..] == r.user_id
  {
    var bothNames := Truthy(r.first_name) && Truthy(r.last_name);
    ResultEntry(DisplayName(r), if bothNames then Some(r.user_email) else None,
                r.photo_count, CountNoun(r.photo_count, "photo"), SamplePreview(r.sample_photos), ProfilePath(r.user_id))
  }

  function Entries(results: seq<SearchResult>): (es: seq<ResultEntry>)
    ensures |es| == |results| && forall i :: 0 <= i < |results| ==> es[i] == Entry(results[i])
  {
    seq(|results|, i requires 0 <= i < |results| => Entry(results[i]))
  }

  /**
   * The dropdown: shown while results are wanted and either the query is long enough or there
   * are results; then a spinner while loading, else the results, else "No users found".
   */
  function Dropdown(showResults: bool, searchQuery: string, results: seq<SearchResult>, isLoading: bool): (d: Option<DropdownContent>)
    ensures d.Some? <==> showResults && (|searchQuery| >= MinQueryLength || results != [])
    ensures d.Some? && isLoading ==> d.value == Searching
    ensures d.Some? && !isLoading && results != [] ==> d.value == ResultList(Entries(results))
    ensures d.Some? && !isLoading && results == [] ==> d.value == NoUsersFound
  {
    if !(showResults && (|searchQuery| >= MinQueryLength || results != [])) then None
    else if isLoading then Some(Searching)
    else if results != [] then Some(ResultList(Entries(results)))
    else if |searchQuery| >= MinQueryLength then Some(NoUsersFound)
    else Some(TypeMore)
  }

  /** The "type at least 2 characters" hint is never shown: the dropdown is hidden in exactly that case. */
  lemma TypeMoreNeverShown(showResults: bool, searchQuery: string, results: seq<SearchResult>, isLoading: bool)
    ensures Dropdown(showResults, searchQuery, results, isLoading) != Some(TypeMore)
  {
  }

  /** After a too-short keystroke the results are empty, so the dropdown is hidden. */
  lemma ShortQueryHidesDropdown(showResults: bool, searchQuery: string, isLoading: bool)
    requires |searchQuery| < MinQueryLength
    ensures Dropdown(showResults, searchQuery, [], isLoading).None?
  {
  }

  /** The search box's state. */
  class SearchState {
    var searchQuery: string
    var results: seq<SearchResult>
    var isLoading: bool
    var showResults: bool

    constructor ()
      ensures searchQuery == "" && results == [] && !isLoading && !showResults
    {
      searchQuery := "";
      results := [];
      isLoading := false;
      showResults := false;
    }

    /**
     * A keystroke: the query is recorded; a query shorter than two characters clears the
     * results without a call (loading untouched); a longer one is sent exactly as typed, and
     * the results become the returned rows (none read as empty), or empty on error.
     * Returns the query sent, if any.
     */
    method HandleSearch(query: string, rpc: Outcome<Option<seq<SearchResult>>>) returns (sent: Option<string>)
      modifies this`searchQuery, this`results, this`isLoading
      ensures searchQuery == query
      ensures sent.Some? <==> |query| >= MinQueryLength
      ensures sent.Some? ==> sent.value == query
      ensures |query| < MinQueryLength ==> results == [] && isLoading == old(isLoading)
      ensures |query| >= MinQueryLength ==> !isLoading && results == (if rpc.Ok? then rpc.value.GetOr([]) else [])
    {
      searchQuery := query;
      sent := None;
      if |query| < MinQueryLength {
        results := [];
        return;
      }
      isLoading := true;
      sent := Some(query);
      results := if rpc.Ok? then rpc.value.GetOr([]) else [];
      isLoading := false;
    }

    /** The clear button empties the query and the results. */
    method Clear()
      modifies this`searchQuery, this`results
      ensures searchQuery == "" && results == []
    {
      searchQuery := "";
      results := [];
    }

    /** Focusing the box asks for the dropdown. */
    method Focus()
      modifies this`showResults
      ensures showResults
    {
      showResults := true;
    }

    /** A click on the backdrop hides the dropdown. */
    method CloseResults()
      modifies this`showResults
      ensures !showResults
    {
      showResults := false;
    }

    /** Choosing a result navigates to its profile, hides the dropdown and clears the query (the results stay). */
    method SelectResult(r: SearchResult) returns (path: string)
      modifies this`showResults, this`searchQuery
      ensures path == Entry(r).path
      ensures !showResults && searchQuery == ""
    {
      path := ProfilePath(r.user_id);
      showResults := false;
      searchQuery := "";
    }
  }
}
