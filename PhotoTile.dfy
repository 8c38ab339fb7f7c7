/**
 * A gallery tile: a plain photo card, or, for a batch tile, a collapsed tile showing the
 * batch's size that expands into one card per batch member with its own flipped set.
 */
module PhotoTile {
  import opened Wrappers
  import opened Collections
  import opened Types

  /** A photo is a batch tile when `is_batch_tile` is true and `batch_photos` is present (an empty list counts). */
  predicate IsBatch(photo: Photo) {
    photo.is_batch_tile == Some(true) && photo.batch_photos.Some?
  }

  /** The props of one card the tile renders. */
  datatype CardProps = CardProps(photo: Photo, isFlipped: bool, viewMode: ViewMode)

  /** The tag row of a collapsed slide tile: the first tags shown, and the overflow badge's number. */
  datatype TagRow = TagRow(shown: seq<string>, overflow: Option<nat>)

  /** What a tile renders. */
  datatype TileView =
    | PlainCard(card: CardProps)
    | ExpandedBatch(count: nat, cards: seq<CardProps>)
    | CollapsedSlide(count: nat, tagRow: Option<TagRow>)
    | CollapsedFlip(count: nat)

  /** At most three tags are shown; with more, the badge shows how many are hidden. Absent or empty tags show no row. */
  function TagBadges(tags: Option<seq<string>>): (r: Option<TagRow>)
    ensures r.Some? <==> tags.Some? && tags.value != []
    ensures r.Some? ==> r.value.shown == Take(tags.value, 3)
    ensures r.Some? && |tags.value| <= 3 ==> r.value.shown == tags.value && r.value.overflow == None
    ensures r.Some? && |tags.value| > 3 ==> |r.value.shown| == 3 && r.value.overflow == Some(|tags.value| - 3)
  {
    match tags
    case None => None
    case Some(ts) =>
      if ts == [] then None
      else Some(TagRow(Take(ts, 3), if |ts| > 3 then Some(|ts| - 3) else None))
  }

  /**
   * The shown tags and the overflow number together account for every tag exactly: the
   * shown ones are the first tags, and the badge counts the ones after them.
   */
  lemma TagBadgesAccountForAll(tags: seq<string>)
    requires tags != []
    ensures var row := TagBadges(Some(tags)).value;
      |row.shown| + row.overflow.GetOr(0) == |tags| && row.shown + tags[|row.shown|..] == tags
  {
  }

  /** The cards of an expanded batch: one per member, in order, flipped when its id is in the set. */
  function BatchCards(members: seq<Photo>, flipped: set<string>, viewMode: ViewMode): (r: seq<CardProps>)
    ensures |r| == |members|
    ensures forall i :: 0 <= i < |members| ==> r[i] == CardProps(members[i], members[i].id in flipped, viewMode)
  {
    if members == [] then []
    else [CardProps(members[0], members[0].id in flipped, viewMode)] + BatchCards(members[1..], flipped, viewMode)
  }

  /**
   * The render dispatch: a non-batch photo is a plain card with the tile's own props; a batch
   * tile shows its size, and its members' cards when expanded.
   */
  function Render(photo: Photo, isFlipped: bool, viewMode: ViewMode, isExpanded: bool, flipped: set<string>): (v: TileView)
    ensures v.PlainCard? <==> !IsBatch(photo)
    ensures v.PlainCard? ==> v.card == CardProps(photo, isFlipped, viewMode)
    ensures !v.PlainCard? ==> v.count == |photo.batch_photos.value|
    ensures v.ExpandedBatch? <==> IsBatch(photo) && isExpanded
    ensures v.ExpandedBatch? ==> v.cards == BatchCards(photo.batch_photos.value, flipped, viewMode)
    ensures v.CollapsedSlide? <==> IsBatch(photo) && !isExpanded && viewMode.Slide?
    ensures v.CollapsedSlide? ==> v.tagRow == TagBadges(photo.tags)
    ensures v.CollapsedFlip? <==> IsBatch(photo) && !isExpanded && viewMode.Flip?
  {
    if !IsBatch(photo) then PlainCard(CardProps(photo, isFlipped, viewMode))
    else
      var members := photo.batch_photos.value;
      if isExpanded then ExpandedBatch(|members|, BatchCards(members, flipped, viewMode))
      else if viewMode.Slide? then CollapsedSlide(|members|, TagBadges(photo.tags))
      else CollapsedFlip(|members|)
  }

  /** A tile's local state. */
  class TileState {
    var isExpanded: bool
    var expandedFlippedCards: set<string>

    constructor ()
      ensures !isExpanded && expandedFlippedCards == {}
    {
      isExpanded := false;
      expandedFlippedCards := {};
    }

    /** What the tile renders for these props in the current state. */
    function View(photo: Photo, isFlipped: bool, viewMode: ViewMode): TileView
      reads this
    {
      Render(photo, isFlipped, viewMode, isExpanded, expandedFlippedCards)
    }

    /** Flipping an expanded card toggles exactly its id. */
    method ExpandedFlip(photoId: string)
      modifies this`expandedFlippedCards
      ensures expandedFlippedCards == Toggle(old(expandedFlippedCards), photoId)
      ensures photoId in expandedFlippedCards <==> photoId !in old(expandedFlippedCards)
      ensures forall other :: other != photoId ==> (other in expandedFlippedCards <==> other in old(expandedFlippedCards))
    {
      expandedFlippedCards := Toggle(expandedFlippedCards, photoId);
    }

    /** A click on a collapsed tile. */
    method Expand()
      modifies this`isExpanded
      ensures isExpanded
    {
      isExpanded := true;
    }

    /** The expanded view's close button. */
    method Collapse()
      modifies this`isExpanded
      ensures !isExpanded
    {
      isExpanded := false;
    }

    /** A delete inside the batch is handed to the parent with the same id. */
    method DeleteFromBatch(photoId: string) returns (forwarded: string)
      ensures forwarded == photoId
    {
      forwarded := photoId;
    }

    /** An update inside the batch is handed to the parent with the same photo. */
    method UpdateInBatch(updatedPhoto: Photo) returns (forwarded: Photo)
      ensures forwarded == updatedPhoto
    {
      forwarded := updatedPhoto;
    }
  }

  /**
   * Flipping one expanded card changes only that card's face among the rendered cards:
   * a member with that id shows the opposite of before, every other member is as before.
   */
  lemma ExpandedFlipChangesOneCard(members: seq<Photo>, flipped: set<string>, viewMode: ViewMode, photoId: string, i: nat)
    requires i < |members|
    ensures var before, after := BatchCards(members, flipped, viewMode), BatchCards(members, Toggle(flipped, photoId), viewMode);
      && after[i].photo == before[i].photo
      && (members[i].id == photoId ==> after[i].isFlipped == !before[i].isFlipped)
      && (members[i].id != photoId ==> after[i].isFlipped == before[i].isFlipped)
  {
  }
}
