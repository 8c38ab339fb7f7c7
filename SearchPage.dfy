/**
 * The search page: a submitted query, trimmed, goes to the public search RPC; the page lists
 * the users found with an avatar letter, a name, a photo count and a few sample photos.
 */
module SearchPage {
  import opened Wrappers
  import opened Strings
  import opened Types

  /** Submit is disabled while a search runs or when the query is only whitespace. */
  function SubmitDisabled(isSearching: bool, searchQuery: string): (r: bool)
    ensures !isSearching ==> (r <==> forall i :: 0 <= i < |searchQuery| ==> IsSpace(searchQuery[i]))
    ensures isSearching ==> r
  {
    BlankIffAllSpace(searchQuery);
    isSearching || IsBlank(searchQuery)
  }

  /**
   * The avatar letter: the first name's first character, else the email's, uppercased.
   * None when both are empty: the source then calls `toUpperCase` on `undefined` and the render fails.
   */
  function AvatarLetter(r: SearchResult): (c: Option<char>)
    ensures c.None? <==> !Truthy(r.first_name) && r.user_email == []
    ensures Truthy(r.first_name) ==> c == Some(UpperChar(r.first_name.value[0]))
    ensures !Truthy(r.first_name) && r.user_email != [] ==> c == Some(UpperChar(r.user_email[0]))
  {
    if Truthy(r.first_name) then Some(UpperChar(r.first_name.value[0]))
    else if r.user_email != [] then Some(UpperChar(r.user_email[0]))
    else None
  }

  /** One user card. */
  datatype UserCard = UserCard(avatar: Option<char>, name: string, email: string, photoCount: int, photoNoun: string, samples: seq<SamplePhoto>)

  /** What the page shows below the form. */
  datatype ResultsView = NotSearched | NoUsersFound | Found(count: nat, userNoun: string, cards: seq<UserCard>)

  function Card(r: SearchResult): (c: UserCard)
    ensures c.avatar == AvatarLetter(r) && c.name == DisplayName(r) && c.email == r.user_email
    ensures c.photoCount == r.photo_count && (c.photoNoun == "photo" <==> r.photo_count == 1)
    ensures c.samples == SamplePreview(r.sample_photos)
  {
    UserCard(AvatarLetter(r), DisplayName(r), r.user_email, r.photo_count, CountNoun(r.photo_count, "photo"), SamplePreview(r.sample_photos))
  }

  /** Before any search the page shows its introduction; after one, the users found or "No users found". */
  function Results(hasSearched: bool, results: seq<SearchResult>): (v: ResultsView)
    ensures v.NotSearched? <==> !hasSearched
    ensures v.NoUsersFound? <==> hasSearched && results == []
    ensures v.Found? ==> v.count == |results| && (v.userNoun == "user" <==> |results| == 1)
    ensures v.Found? ==> |v.cards| == |results| && forall i :: 0 <= i < |results| ==> v.cards[i] == Card(results[i])
  {
    if !hasSearched then NotSearched
    else if results == [] then NoUsersFound
    else Found(|results|, CountNoun(|results|, "user"), seq(|results|, i requires 0 <= i < |results| => Card(results[i])))
  }

  /** The page's state. */
  class SearchPageState {
    var searchQuery: string
    var searchResults: seq<SearchResult>
    var isSearching: bool
    var hasSearched: bool

    constructor ()
      ensures searchQuery == "" && searchResults == [] && !isSearching && !hasSearched
    {
      searchQuery := "";
      searchResults := [];
      isSearching := false;
      hasSearched := false;
    }

    method SetQuery(query: string)
      modifies this`searchQuery
      ensures searchQuery == query
    {
      searchQuery := query;
    }

    /**
     * Submitting: a query that is blank after trimming does nothing. Otherwise the search is
     * marked as done and the trimmed query sent; the results are the returned rows (none read
     * as empty), or empty on error, and the search ends. Returns the query sent, if any.
     */
    method HandleSearch(rpc: Outcome<Option<seq<SearchResult>>>) returns (sent: Option<string>)
      modifies this`searchResults, this`isSearching, this`hasSearched
      ensures sent.Some? <==> !IsBlank(searchQuery)
      ensures sent.None? ==>
        searchResults == old(searchResults) && isSearching == old(isSearching) && hasSearched == old(hasSearched)
      ensures sent.Some? ==>
        && sent.value == Trim(searchQuery) && hasSearched && !isSearching
        && searchResults == (if rpc.Ok? then rpc.value.GetOr([]) else [])
    {
      var query := searchQuery;
      sent := None;
      if IsBlank(query) {
        return;
      }
      var trimmed := Trim(query);
      isSearching := true;
      hasSearched := true;
      sent := Some(trimmed);
      searchResults := if rpc.Ok? then rpc.value.GetOr([]) else [];
      isSearching := false;
      assert searchQuery == query;
    }
  }
}
