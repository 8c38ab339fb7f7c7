/**
 * The tag filter: the user's distinct tag names, sorted, as the options of a dropdown that
 * reports the chosen tag (or the `'all'` sentinel) to its parent.
 */
module TagFilter {
  import opened Wrappers
  import opened Strings
  import opened Collections
  import opened Types

  /** One row of the `photo_tags` query; only the tag's name is read. */
  datatype TagRowData = TagRowData(tag_name: string)

  /** Some returned row carries this tag name. */
  predicate Returned(data: Option<seq<TagRowData>>, t: string) {
    data.Some? && exists row :: row in data.value && row.tag_name == t
  }

  /** The tag names of the rows, in row order (none read as empty). */
  function TagNames(data: Option<seq<TagRowData>>): (r: seq<string>)
    ensures data.Some? ==> |r| == |data.value| && forall i :: 0 <= i < |r| ==> r[i] == data.value[i].tag_name
    ensures data.None? ==> r == []
  {
    match data
    case None => []
    case Some(rows) => seq(|rows|, i requires 0 <= i < |rows| => rows[i].tag_name)
  }

  /** The dropdown's options: each returned tag name once, in ascending order, and nothing else. */
  function Facets(data: Option<seq<TagRowData>>): (r: seq<string>)
    ensures forall t :: t in r <==> Returned(data, t)
    ensures StrictlyAscending(r) && NoDup(r)
  {
    var names := TagNames(data);
    assert forall t :: t in names <==> Returned(data, t) by {
      forall t ensures t in names <==> Returned(data, t) {
        if t in names {
          var i :| 0 <= i < |names| && names[i] == t;
          assert data.value[i] in data.value;
        }
        if data.Some? && exists row :: row in data.value && row.tag_name == t {
          var row :| row in data.value && row.tag_name == t;
          var i :| 0 <= i < |data.value| && data.value[i] == row;
          assert names[i] == t;
        }
      }
    }
    var r := SortDistinct(Dedup(names));
    assert NoDup(r) by {
      forall i, j | 0 <= i < j < |r| ensures r[i] != r[j] {
        LessIrreflexive(r[i]);
      }
    }
    r
  }

  /** The options depend only on which names came back: not on row order, nor on repeats. */
  lemma FacetsDependOnNamesOnly(a: Option<seq<TagRowData>>, b: Option<seq<TagRowData>>)
    requires forall t :: Returned(a, t) <==> Returned(b, t)
    ensures Facets(a) == Facets(b)
  {
    AscendingUnique(Facets(a), Facets(b));
  }

  /** The button's label: "All Tags" for the sentinel, the tag itself otherwise. */
  function Label(selectedTag: string): (r: string)
    ensures selectedTag == AllSentinel ==> r == "All Tags"
    ensures selectedTag != AllSentinel ==> r == selectedTag
  {
    SentinelLabel(selectedTag, "All Tags")
  }

  /** The "Clear Filter" option is offered exactly when a tag is selected. */
  predicate ShowsClearFilter(selectedTag: string) {
    selectedTag != AllSentinel
  }

  /** An option's initial: the tag's first character uppercased; nothing for an empty tag. */
  function Initial(tag: string): (r: string)
    ensures tag == [] <==> r == []
    ensures tag != [] ==> r == [UpperChar(tag[0])]
  {
    if tag == [] then [] else [UpperChar(tag[0])]
  }

  /** The filter's local state. */
  class TagFilterState {
    var availableTags: seq<string>
    var isDropdownOpen: bool
    var isLoading: bool

    constructor ()
      ensures availableTags == [] && !isDropdownOpen && isLoading
    {
      availableTags := [];
      isDropdownOpen := false;
      isLoading := true;
    }

    /**
     * Loading the options: without a user or on a query error the options stay as they were;
     * otherwise they become the facets of the returned rows. Loading ends either way.
     * Reports whether the query was sent.
     */
    method FetchAvailableTags(user: Option<string>, rows: Outcome<Option<seq<TagRowData>>>) returns (queried: bool)
      modifies this`availableTags, this`isLoading
      ensures queried <==> user.Some?
      ensures availableTags == if user.Some? && rows.Ok? then Facets(rows.value) else old(availableTags)
      ensures !isLoading
    {
      isLoading := true;
      queried := user.Some?;
      if user.Some? && rows.Ok? {
        availableTags := Facets(rows.value);
      }
      isLoading := false;
    }

    /** Choosing an option reports exactly that tag and closes the dropdown. */
    method TagSelect(tag: string) returns (reported: string)
      modifies this`isDropdownOpen
      ensures reported == tag && !isDropdownOpen
    {
      reported := tag;
      isDropdownOpen := false;
    }

    /** "All Tags" and "Clear Filter" report the sentinel and close the dropdown. */
    method ClearFilter() returns (reported: string)
      modifies this`isDropdownOpen
      ensures reported == AllSentinel && !isDropdownOpen
    {
      reported := AllSentinel;
      isDropdownOpen := false;
    }

    /** The filter button. */
    method ToggleDropdown()
      modifies this`isDropdownOpen
      ensures isDropdownOpen == !old(isDropdownOpen)
    {
      isDropdownOpen := !isDropdownOpen;
    }

    /** A click on the backdrop. */
    method CloseDropdown()
      modifies this`isDropdownOpen
      ensures !isDropdownOpen
    {
      isDropdownOpen := false;
    }
  }
}
