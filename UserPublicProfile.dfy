/**
 * A user's public profile page: look the user up by id, load the profile's names, then load
 * the user's public photos with their categories flattened into a list of names.
 */
module UserPublicProfile {
  import opened Wrappers
  import opened Strings
  import opened Types

  const UserNotFound: string := "User not found"
  const FailedToLoad: string := "Failed to load user profile"
  const FallbackName: string := "User"

  /** A joined category: `categories` may be missing, and so may its `name`. */
  datatype CategoryRef = CategoryRef(name: Option<string>)
  datatype CategoryLink = CategoryLink(categories: Option<CategoryRef>)

  /** A row of the public photos query: the photo's columns and its `photo_categories` join. */
  datatype PublicPhotoRow = PublicPhotoRow(photo: Photo, photo_categories: Option<seq<CategoryLink>>)

  /** The profile row's name columns. */
  datatype NamesRow = NamesRow(first_name: Option<string>, last_name: Option<string>)

  /** The profile the page keeps: empty strings and missing values are both stored as null. */
  datatype ProfileInfo = ProfileInfo(email: Option<string>, first_name: Option<string>, last_name: Option<string>)

  /** A join link's category name when it is present and non-empty (`pc.categories?.name`, kept by `filter(Boolean)`). */
  function LinkName(link: CategoryLink): (r: Option<string>)
    ensures r.Some? <==> link.categories.Some? && Truthy(link.categories.value.name)
    ensures r.Some? ==> r.value != "" && Some(r.value) == link.categories.value.name
  {
    if link.categories.Some? && Truthy(link.categories.value.name) then link.categories.value.name else None
  }

  /** The names of the joined categories, in join order, dropping missing or empty ones. */
  function LinkNames(links: seq<CategoryLink>): (r: seq<string>)
    ensures forall k :: 0 <= k < |r| ==> r[k] != ""
    ensures |r| <= |links|
  {
    if links == [] then []
    else (if LinkName(links[0]).Some? then [LinkName(links[0]).value] else []) + LinkNames(links[1..])
  }

  /** A name is kept exactly when some link carries it. */
  lemma {:induction false} LinkNamesMembers(links: seq<CategoryLink>, name: string)
    ensures name in LinkNames(links) <==> exists k :: 0 <= k < |links| && LinkName(links[k]) == Some(name)
  {
    if links != [] {
      LinkNamesMembers(links[1..], name);
      if exists k :: 0 <= k < |links[1..]| && LinkName(links[1..][k]) == Some(name) {
        var k :| 0 <= k < |links[1..]| && LinkName(links[1..][k]) == Some(name);
        assert LinkName(links[k + 1]) == Some(name);
      }
      if exists k :: 0 <= k < |links| && LinkName(links[k]) == Some(name) {
        var k :| 0 <= k < |links| && LinkName(links[k]) == Some(name);
        if k > 0 {
          assert LinkName(links[1..][k - 1]) == Some(name);
        }
      }
    }
  }

  /** Names keep their join order: the names of two runs of links are the first run's, then the second's. */
  lemma {:induction false} LinkNamesAppend(a: seq<CategoryLink>, b: seq<CategoryLink>)
    ensures LinkNames(a + b) == LinkNames(a) + LinkNames(b)
  {
    if a == [] {
      assert a + b == b;
    } else {
      assert (a + b)[1..] == a[1..] + b;
      LinkNamesAppend(a[1..], b);
    }
  }

  /** A photo's category list: the join's names, or empty when the join is absent. */
  function CategoryNames(photoCategories: Option<seq<CategoryLink>>): (r: seq<string>)
    ensures photoCategories.None? ==> r == []
    ensures photoCategories.Some? ==> |r| <= |photoCategories.value|
    ensures forall k :: 0 <= k < |r| ==> r[k] != ""
  {
    match photoCategories
    case None => []
    case Some(links) => LinkNames(links)
  }

  /** The page's photos: every row's photo, in order, with only `categories` replaced by its join's names. */
  function Transform(rows: seq<PublicPhotoRow>): (r: seq<Photo>)
    ensures |r| == |rows|
    ensures forall i :: 0 <= i < |rows| ==>
      r[i] == rows[i].photo.(categories := Some(CategoryNames(rows[i].photo_categories)))
    ensures forall i :: 0 <= i < |rows| && rows[i].photo_categories.None? ==> r[i].categories == Some([])
  {
    seq(|rows|, i requires 0 <= i < |rows| => rows[i].photo.(categories := Some(CategoryNames(rows[i].photo_categories))))
  }

  /** A value kept only when truthy (`x || null`). */
  function OrNull(s: Option<string>): (r: Option<string>)
    ensures r.Some? <==> Truthy(s)
    ensures r.Some? ==> r == s
  {
    if Truthy(s) then s else None
  }

  /** The page header's name: "User" without a profile, "first last" with both names, else the email, else "User". */
  function DisplayName(profile: Option<ProfileInfo>): (name: string)
    ensures profile.None? ==> name == FallbackName
    ensures profile.Some? && Truthy(profile.value.first_name) && Truthy(profile.value.last_name) ==>
      name == profile.value.first_name.value + " " + profile.value.last_name.value
    ensures profile.Some? && !(Truthy(profile.value.first_name) && Truthy(profile.value.last_name)) ==>
      name == (if Truthy(profile.value.email) then profile.value.email.value else FallbackName)
    ensures name != ""
  {
    if profile.None? then FallbackName
    else if Truthy(profile.value.first_name) && Truthy(profile.value.last_name) then
      profile.value.first_name.value + " " + profile.value.last_name.value
    else if Truthy(profile.value.email) then profile.value.email.value
    else FallbackName
  }

  /** A query the fetch sends. */
  datatype ProfileQuery = EmailLookup(userId: string) | NamesLookup(userId: string) | PublicPhotos(userId: string)

  /** The page's state. */
  class PublicProfileState {
    var profile: Option<ProfileInfo>
    var photos: seq<Photo>
    var isLoading: bool
    var error: Option<string>

    constructor ()
      ensures profile.None? && photos == [] && isLoading && error.None?
    {
      profile := None;
      photos := [];
      isLoading := true;
      error := None;
    }

    /**
     * The fetch. Without a route id nothing happens. An email lookup error or a missing email
     * sets "User not found", ends loading and sends nothing more. Otherwise the profile is
     * stored with the email and the names (missing or empty ones as null), then the public
     * photos are loaded and transformed; a failure there sets "Failed to load user profile".
     * Loading ends. An earlier error is not cleared. `names` is the profile row (its error is
     * ignored). Returns the queries sent, in order.
     */
    method FetchUserProfile(userId: Option<string>, emailRpc: Outcome<Option<string>>, names: Option<NamesRow>,
                            photosQuery: Outcome<Option<seq<PublicPhotoRow>>>) returns (sent: seq<ProfileQuery>)
      modifies this`profile, this`photos, this`isLoading, this`error
      ensures !Truthy(userId) ==>
        sent == [] && profile == old(profile) && photos == old(photos) && isLoading == old(isLoading) && error == old(error)
      ensures Truthy(userId) && (emailRpc.Err? || !Truthy(emailRpc.value)) ==>
        && sent == [EmailLookup(userId.value)]
        && error == Some(UserNotFound) && !isLoading && profile == old(profile) && photos == old(photos)
      ensures Truthy(userId) && emailRpc.Ok? && Truthy(emailRpc.value) ==>
        && sent == [EmailLookup(userId.value), NamesLookup(userId.value), PublicPhotos(userId.value)]
        && profile == Some(ProfileInfo(emailRpc.value,
                                       if names.Some? then OrNull(names.value.first_name) else None,
                                       if names.Some? then OrNull(names.value.last_name) else None))
        && !isLoading
        && (photosQuery.Err? ==> error == Some(FailedToLoad) && photos == old(photos))
        && (photosQuery.Ok? ==> error == old(error) && photos == Transform(photosQuery.value.GetOr([])))
    {
      sent := [];
      if !Truthy(userId) {
        return;
      }
      var id := userId.value;
      if emailRpc.Err? || !Truthy(emailRpc.value) {
        sent := [EmailLookup(id)];
        error := Some(UserNotFound);
        isLoading := false;
        return;
      }
      sent := [EmailLookup(id), NamesLookup(id), PublicPhotos(id)];
      var firstName := if names.Some? then OrNull(names.value.first_name) else None;
      var lastName := if names.Some? then OrNull(names.value.last_name) else None;
      profile := Some(ProfileInfo(emailRpc.value, firstName, lastName));
      if photosQuery.Err? {
        error := Some(FailedToLoad);
      } else {
        photos := Transform(photosQuery.value.GetOr([]));
      }
      isLoading := false;
    }
  }
}
