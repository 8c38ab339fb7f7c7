/**
 * The photo card: its edit draft (title, reason, visibility and the category list), adding a
 * category from the draft form, save and cancel, and what a click on the card does.
 */
module PhotoCard {
  import opened Wrappers
  import opened Strings
  import opened Collections
  import opened Types

  /** The unique-violation code the `categories` insert reports for a name that already exists. */
  const DuplicateNameCode: string := "23505"

  /** The draft's category names, an absent list read as empty (`prev.categories || []`). */
  function DraftCategories(p: Photo): seq<string> {
    p.categories.GetOr([])
  }

  /** The draft a card starts with: the photo itself, its category list made present. */
  function InitialDraft(photo: Photo): (d: Photo)
    ensures d.categories == Some(DraftCategories(photo))
    ensures d.(categories := photo.categories) == photo
  {
    photo.(categories := Some(DraftCategories(photo)))
  }

  /**
   * The draft's category list after a checkbox toggle: all occurrences of an included name
   * removed, or an excluded name appended, then deduplicated.
   */
  function ToggleCategory(current: seq<string>, name: string): (r: seq<string>)
    ensures name in r <==> name !in current
    ensures forall c :: c != name ==> (c in r <==> c in current)
    ensures NoDup(r)
  {
    Dedup(if name in current then RemoveAll(current, name) else current + [name])
  }

  /** On a list without repeats, a newly checked name goes at the end and the rest keep their order. */
  lemma ToggleAppends(current: seq<string>, name: string)
    requires NoDup(current) && name !in current
    ensures ToggleCategory(current, name) == current + [name]
  {
    assert NoDup(current + [name]);
  }

  /** On a list without repeats, unchecking a name removes it and the rest keep their order. */
  lemma ToggleRemoves(current: seq<string>, name: string)
    requires NoDup(current) && name in current
    ensures ToggleCategory(current, name) == RemoveAll(current, name)
  {
  }

  /** Checking and then unchecking a name restores the list exactly. */
  lemma ToggleUndo(current: seq<string>, name: string)
    requires NoDup(current) && name !in current
    ensures ToggleCategory(ToggleCategory(current, name), name) == current
  {
    ToggleAppends(current, name);
    RemoveAllAppend(current, [name], name);
    assert RemoveAll([name], name) == [];
  }

  /** The category list after a successful add: the returned name present exactly once. */
  lemma AddedNameOnce(current: seq<string>, name: string)
    ensures var r := Dedup(current + [name]);
      multiset(r)[name] == 1 && forall c :: c != name ==> (c in r <==> c in current)
  {
    OccursOnce(Dedup(current + [name]), name);
  }

  /**
   * The photo handed to `onUpdate` on save: the original photo with title, `date_taken`,
   * reason and `is_public` taken from the draft, and the draft's categories deduplicated.
   */
  function Saved(photo: Photo, draft: Photo): (r: Photo)
    ensures r.id == photo.id && r.user_id == photo.user_id
    ensures r.imageUrl == photo.imageUrl && r.image_url == photo.image_url && r.dateTaken == photo.dateTaken
    ensures r.tags == photo.tags && r.is_batch_tile == photo.is_batch_tile && r.batch_photos == photo.batch_photos
    ensures r.title == draft.title && r.date_taken == draft.date_taken
    ensures r.reason == draft.reason && r.is_public == draft.is_public
    ensures r.categories.Some? && NoDup(r.categories.value)
    ensures forall c :: c in r.categories.value <==> c in DraftCategories(draft)
  {
    photo.(title := draft.title, date_taken := draft.date_taken, reason := draft.reason,
           categories := Some(Dedup(DraftCategories(draft))), is_public := draft.is_public)
  }

  /** What a click on the card asks of its parent. */
  datatype ClickEffect = NoEffect | OpenFullscreen | RequestFlip

  /** A click does nothing while editing or in a public view; otherwise slide opens, flip flips. */
  function ClickOutcome(isEditing: bool, isPublicView: bool, viewMode: ViewMode): (e: ClickEffect)
    ensures e == NoEffect <==> isEditing || isPublicView
    ensures e == OpenFullscreen <==> !isEditing && !isPublicView && viewMode.Slide?
    ensures e == RequestFlip <==> !isEditing && !isPublicView && viewMode.Flip?
  {
    if isEditing || isPublicView then NoEffect
    else if viewMode.Slide? then OpenFullscreen
    else RequestFlip
  }

  /** One mounted card: its props and its local state. */
  class CardState {
    // props (the parent may re-render with new ones; the local state then persists)
    var photo: Photo
    var viewMode: ViewMode
    var isPublicView: bool
    // local state
    var isEditing: bool
    var editedPhoto: Photo
    var isFullscreen: bool
    var categories: seq<Category>
    var newCategory: string

    constructor (photo: Photo, viewMode: ViewMode, isPublicView: bool)
      ensures this.photo == photo && this.viewMode == viewMode && this.isPublicView == isPublicView
      ensures !isEditing && editedPhoto == InitialDraft(photo) && !isFullscreen
      ensures categories == [] && newCategory == ""
    {
      this.photo := photo;
      this.viewMode := viewMode;
      this.isPublicView := isPublicView;
      isEditing := false;
      editedPhoto := InitialDraft(photo);
      isFullscreen := false;
      categories := [];
      newCategory := "";
    }

    /** The parent re-renders the card with new props. */
    method Rerender(photo: Photo, viewMode: ViewMode, isPublicView: bool)
      modifies this`photo, this`viewMode, this`isPublicView
      ensures this.photo == photo && this.viewMode == viewMode && this.isPublicView == isPublicView
    {
      this.photo := photo;
      this.viewMode := viewMode;
      this.isPublicView := isPublicView;
    }

    /**
     * Loading the user's categories (not in a public view): on success the list is the
     * returned rows, or empty when none came back; without a user or on error it is unchanged.
     */
    method FetchCategories(user: Option<string>, rows: Outcome<Option<seq<Category>>>)
      modifies this`categories
      ensures categories == if !isPublicView && user.Some? && rows.Ok? then rows.value.GetOr([]) else old(categories)
    {
      if !isPublicView && user.Some? && rows.Ok? {
        categories := rows.value.GetOr([]);
      }
    }

    /** The Edit button. */
    method StartEditing()
      modifies this`isEditing
      ensures isEditing
    {
      isEditing := true;
    }

    method EditTitle(title: string)
      modifies this`editedPhoto
      ensures editedPhoto == old(editedPhoto).(title := title)
    {
      editedPhoto := editedPhoto.(title := title);
    }

    method EditReason(reason: string)
      modifies this`editedPhoto
      ensures editedPhoto == old(editedPhoto).(reason := reason)
    {
      editedPhoto := editedPhoto.(reason := reason);
    }

    method EditPublic(checked: bool)
      modifies this`editedPhoto
      ensures editedPhoto == old(editedPhoto).(is_public := Some(checked))
    {
      editedPhoto := editedPhoto.(is_public := Some(checked));
    }

    method TypeNewCategory(text: string)
      modifies this`newCategory
      ensures newCategory == text
    {
      newCategory := text;
    }

    /** A category checkbox: only the draft's category list changes. */
    method CategoryToggle(name: string)
      modifies this`editedPhoto
      ensures editedPhoto == old(editedPhoto).(categories := Some(ToggleCategory(DraftCategories(old(editedPhoto)), name)))
    {
      editedPhoto := editedPhoto.(categories := Some(ToggleCategory(DraftCategories(editedPhoto), name)));
    }

    /**
     * The add-category form. `insert` is the outcome of the insert, consulted only when it is
     * sent. A blank name, no user or a failed insert leaves the state as it was (a duplicate
     * name raises the alert); a successful insert appends the returned row, adds its name to
     * the draft once and clears the input.
     */
    method AddCategory(user: Option<string>, insert: Outcome<Category>) returns (sent: Option<NewCategory>, duplicateAlert: bool)
      modifies this`categories, this`editedPhoto, this`newCategory
      ensures sent == CategoryInsert(old(newCategory), user)
      ensures duplicateAlert <==> sent.Some? && insert.Err? && insert.code == DuplicateNameCode
      ensures sent.Some? && insert.Ok? ==>
        && categories == old(categories) + [insert.value]
        && editedPhoto == old(editedPhoto).(categories := Some(Dedup(DraftCategories(old(editedPhoto)) + [insert.value.name])))
        && newCategory == ""
      ensures sent.None? || insert.Err? ==>
        categories == old(categories) && editedPhoto == old(editedPhoto) && newCategory == old(newCategory)
    {
      sent := CategoryInsert(newCategory, user);
      duplicateAlert := false;
      if sent.None? {
        return;
      }
      match insert
      case Err(code, _) =>
        duplicateAlert := code == DuplicateNameCode;
      case Ok(row) =>
        categories := categories + [row];
        editedPhoto := editedPhoto.(categories := Some(Dedup(DraftCategories(editedPhoto) + [row.name])));
        newCategory := "";
    }

    /** Save: hands `Saved(photo, editedPhoto)` to `onUpdate` and leaves edit mode. */
    method Save() returns (updated: Photo)
      modifies this`isEditing
      ensures updated == Saved(photo, editedPhoto)
      ensures !isEditing
    {
      updated := Saved(photo, editedPhoto);
      isEditing := false;
    }

    /** Cancel: the draft becomes the current photo prop again and edit mode ends. */
    method Cancel()
      modifies this`editedPhoto, this`isEditing
      ensures editedPhoto == photo && !isEditing
    {
      editedPhoto := photo;
      isEditing := false;
    }

    /** A click on the card; reports whether `onFlip` is called. */
    method CardClick() returns (flipRequested: bool)
      modifies this`isFullscreen
      ensures flipRequested <==> ClickOutcome(isEditing, isPublicView, viewMode) == RequestFlip
      ensures isFullscreen == (old(isFullscreen) || ClickOutcome(isEditing, isPublicView, viewMode) == OpenFullscreen)
    {
      var effect := ClickOutcome(isEditing, isPublicView, viewMode);
      flipRequested := effect == RequestFlip;
      if effect == OpenFullscreen {
        isFullscreen := true;
      }
    }

    /** The close button, or the pointer leaving the fullscreen overlay. */
    method CloseFullscreen()
      modifies this`isFullscreen
      ensures !isFullscreen
    {
      isFullscreen := false;
    }
  }
}
