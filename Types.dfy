/**
 * The shared entity shapes. Field names are the source's own: they are the column and
 * property names the handlers read, and the source carries both `imageUrl` and `image_url`
 * (and `dateTaken` and `date_taken`) as distinct optional properties.
 */
module Types {
  import opened Wrappers
  import opened Strings
  import opened Collections

  /**
   * A photo record. `tags`, `is_batch_tile` and `batch_photos` are read by the tile
   * component but missing from the declared interface; they are optional here.
   */
  datatype Photo = Photo(
    id: string,
    imageUrl: Option<string>,
    image_url: Option<string>,
    title: string,
    dateTaken: Option<string>,
    date_taken: Option<string>,
    reason: string,
    categories: Option<seq<string>>,
    user_id: Option<string>,
    is_public: Option<bool>,
    tags: Option<seq<string>>,
    is_batch_tile: Option<bool>,
    batch_photos: Option<seq<Photo>>)

  /** The two card presentations; the layout's view toggle switches between them. */
  datatype ViewMode = Flip | Slide

  /** A user-scoped category row. */
  datatype Category = Category(id: string, name: string, user_id: Option<string>)

  /** The row sent to the `categories` insert: the trimmed name and the signed-in user. */
  datatype NewCategory = NewCategory(name: string, user_id: string)

  /**
   * The insert an add-category form submits: none when the typed name is blank after
   * trimming or nobody is signed in, else the trimmed name with the user's id.
   */
  function CategoryInsert(typed: string, user: Option<string>): (r: Option<NewCategory>)
    ensures r.Some? <==> !IsBlank(typed) && user.Some?
    ensures r.Some? ==> r.value == NewCategory(Trim(typed), user.value)
    ensures r.Some? ==> r.value.name != [] && !IsSpace(r.value.name[0]) && !IsSpace(r.value.name[|r.value.name| - 1])
  {
    TrimIsCore(typed);
    if IsBlank(typed) || user.None? then None else Some(NewCategory(Trim(typed), user.value))
  }

  datatype SamplePhoto = SamplePhoto(id: string, title: string, image_url: string, date_taken: string)

  /**
   * One row of the public search RPC. The declared interface omits the two name columns,
   * which both search views read; they are nullable here.
   */
  datatype SearchResult = SearchResult(
    user_id: string,
    user_email: string,
    first_name: Option<string>,
    last_name: Option<string>,
    photo_count: int,
    sample_photos: Option<seq<SamplePhoto>>)

  /**
   * A search result's name: "first last" when both names are non-empty, the email otherwise.
   * Both search views use this rule.
   */
  function DisplayName(r: SearchResult): (name: string)
    ensures Truthy(r.first_name) && Truthy(r.last_name) ==> name == r.first_name.value + " " + r.last_name.value
    ensures !(Truthy(r.first_name) && Truthy(r.last_name)) ==> name == r.user_email
  {
    if Truthy(r.first_name) && Truthy(r.last_name) then r.first_name.value + " " + r.last_name.value else r.user_email
  }

  /** With both names, the shown name splits back into them at its first space when the first name has none. */
  lemma DisplayNameSplits(r: SearchResult)
    requires Truthy(r.first_name) && Truthy(r.last_name) && ' ' !in r.first_name.value
    ensures var name := DisplayName(r); var k := |r.first_name.value|;
      k < |name| && name[k] == ' ' && name[..k] == r.first_name.value && name[k + 1..] == r.last_name.value
      && ' ' !in name[..k]
  {
  }

  /** A counted noun: singular exactly when the count is one, otherwise with an "s". */
  function CountNoun(n: int, singular: string): (r: string)
    ensures n == 1 <==> r == singular
    ensures n != 1 ==> r == singular + "s"
  {
    if n == 1 then singular else singular + "s"
  }

  /** A dropdown button's label: `allText` for the "all" sentinel, the selected name itself otherwise. */
  function SentinelLabel(selected: string, allText: string): (r: string)
    ensures selected == AllSentinel ==> r == allText
    ensures selected != AllSentinel ==> r == selected
  {
    if selected == AllSentinel then allText else selected
  }

  /** The sample photos a result shows: at most the first four, none when the list is absent or empty. */
  function SamplePreview(samples: Option<seq<SamplePhoto>>): (r: seq<SamplePhoto>)
    ensures |r| <= 4
    ensures r == [] <==> samples.None? || samples.value == []
    ensures samples.Some? ==> |r| <= |samples.value| && r == samples.value[..|r|]
    ensures samples.Some? && |samples.value| >= 4 ==> |r| == 4
    ensures samples.Some? && |samples.value| < 4 ==> r == samples.value
  {
    if samples.None? || samples.value == [] then [] else Take(samples.value, 4)
  }

  /** The `'all'` sentinel of the category and tag selections. */
  const AllSentinel: string := "all"
}
