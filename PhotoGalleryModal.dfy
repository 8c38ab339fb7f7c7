/**
 * The fullscreen gallery modal: one current index over the photo list, moved by the arrow
 * keys, the previous/next buttons and the thumbnails, and reset when the opening index changes.
 * The index is an `int`, as in the source: nothing stops a caller from passing any number.
 */
module PhotoGalleryModal {
  import opened Wrappers
  import opened Types

  /** One step back, wrapping from the first photo to the last. */
  function Previous(i: int, n: int): (r: int)
    ensures 0 <= i < n ==> 0 <= r < n
    ensures i > 0 ==> r == i - 1
    ensures i <= 0 ==> r == n - 1
  {
    if i > 0 then i - 1 else n - 1
  }

  /** One step forward, wrapping from the last photo to the first. */
  function Next(i: int, n: int): (r: int)
    ensures 0 <= i < n ==> 0 <= r < n
    ensures i < n - 1 ==> r == i + 1
    ensures i >= n - 1 ==> r == 0
  {
    if i < n - 1 then i + 1 else 0
  }

  /** Within range, a step forward and a step back undo each other, in either order. */
  lemma NextPreviousInverse(i: int, n: int)
    requires 0 <= i < n
    ensures Previous(Next(i, n), n) == i
    ensures Next(Previous(i, n), n) == i
  {
  }

  /** Going forward `k` times: from an index in range, the result stays in range. */
  function Forward(i: int, n: int, k: nat): (r: int)
    ensures 0 <= i < n ==> 0 <= r < n
  {
    if k == 0 then i else Next(Forward(i, n, k - 1), n)
  }

  /** Short of the end of the list, going forward `k` times moves exactly `k` places. */
  lemma {:induction false} ForwardCounts(i: int, n: int, k: nat)
    requires 0 <= i && i + k < n
    ensures Forward(i, n, k) == i + k
  {
    if k > 0 {
      ForwardCounts(i, n, k - 1);
    }
  }

  /** Going forward `a` times and then `b` times is going forward `a + b` times. */
  lemma {:induction false} ForwardCompose(i: int, n: int, a: nat, b: nat)
    ensures Forward(Forward(i, n, a), n, b) == Forward(i, n, a + b)
  {
    if b > 0 {
      ForwardCompose(i, n, a, b - 1);
    }
  }

  /** After `n` steps forward the modal shows the photo it started on: the list is a cycle. */
  lemma ForwardFullCircle(i: int, n: int)
    requires 0 <= i < n
    ensures Forward(i, n, n) == i
  {
    ForwardCounts(i, n, n - 1 - i);
    assert Forward(i, n, n - i) == 0;
    ForwardCounts(0, n, i);
    ForwardCompose(i, n, n - i, i);
  }

  /** A key event the modal reacts to: the arrows move, Escape closes, any other key is ignored. */
  datatype Key = ArrowLeft | ArrowRight | Escape | OtherKey

  /** The index after a key event; closed, nothing moves. */
  function KeyStep(i: int, n: int, isOpen: bool, key: Key): (r: int)
    ensures !isOpen || key.Escape? || key.OtherKey? ==> r == i
    ensures isOpen && key.ArrowLeft? ==> r == Previous(i, n)
    ensures isOpen && key.ArrowRight? ==> r == Next(i, n)
  {
    if !isOpen then i
    else match key
      case ArrowLeft => Previous(i, n)
      case ArrowRight => Next(i, n)
      case _ => i
  }

  /** The index after a run of key events while the modal stays open or closed; closed, it never moves. */
  function Replay(i: int, n: int, isOpen: bool, keys: seq<Key>): (r: int)
    ensures !isOpen ==> r == i
    decreases |keys|
  {
    if keys == [] then i else Replay(KeyStep(i, n, isOpen, keys[0]), n, isOpen, keys[1..])
  }

  /** No run of key events takes an index that is in range out of range. */
  lemma {:induction false} ReplayStaysInRange(i: int, n: int, isOpen: bool, keys: seq<Key>)
    requires 0 <= i < n
    ensures 0 <= Replay(i, n, isOpen, keys) < n
    decreases |keys|
  {
    if keys != [] {
      ReplayStaysInRange(KeyStep(i, n, isOpen, keys[0]), n, isOpen, keys[1..]);
    }
  }

  /**
   * What an open modal with photos shows. `current` is None when the index is out of range:
   * the source then reads the image URL of `undefined` and the render fails. `counter` is the
   * "k of n" line under the thumbnails, as (k, n).
   */
  datatype ModalView = ModalView(current: Option<Photo>, showsNavigation: bool, counter: Option<(int, nat)>)

  /**
   * The render: nothing when closed or when the list is empty; otherwise the photo at the
   * current index, and, only with more than one photo, the navigation buttons and the
   * thumbnail block with its "k of n" counter.
   */
  function Render(isOpen: bool, photos: seq<Photo>, currentIndex: int): (v: Option<ModalView>)
    ensures v.None? <==> !isOpen || photos == []
    ensures v.Some? ==> (v.value.showsNavigation <==> |photos| > 1)
    ensures v.Some? ==> (v.value.current.Some? <==> 0 <= currentIndex < |photos|)
    ensures v.Some? && 0 <= currentIndex < |photos| ==> v.value.current == Some(photos[currentIndex])
    ensures v.Some? ==> (v.value.counter.Some? <==> |photos| > 1)
    ensures v.Some? && |photos| > 1 ==> v.value.counter == Some((currentIndex + 1, |photos|))
  {
    if !isOpen || photos == [] then None
    else
      var current := if 0 <= currentIndex < |photos| then Some(photos[currentIndex]) else None;
      var counter := if |photos| > 1 then Some((currentIndex + 1, |photos|)) else None;
      Some(ModalView(current, |photos| > 1, counter))
  }

  /**
   * Whatever run of key events follows a valid opening index, the open modal still renders a
   * photo, and its counter reads between 1 and the number of photos.
   */
  lemma {:induction false} KeysKeepRenderable(photos: seq<Photo>, start: int, keys: seq<Key>)
    requires 0 <= start < |photos|
    ensures var v := Render(true, photos, Replay(start, |photos|, true, keys));
      && v.Some? && v.value.current.Some?
      && (v.value.counter.Some? ==> 1 <= v.value.counter.value.0 <= v.value.counter.value.1)
  {
    ReplayStaysInRange(start, |photos|, true, keys);
  }

  /** The modal's state: the current index. */
  class ModalState {
    var currentIndex: int

    constructor (initialIndex: int)
      ensures currentIndex == initialIndex
    {
      currentIndex := initialIndex;
    }

    /** A new opening index replaces the current one. */
    method ResetTo(initialIndex: int)
      modifies this
      ensures currentIndex == initialIndex
    {
      currentIndex := initialIndex;
    }

    /** The previous button. */
    method GoToPrevious(n: int)
      modifies this
      ensures currentIndex == Previous(old(currentIndex), n)
    {
      currentIndex := if currentIndex > 0 then currentIndex - 1 else n - 1;
    }

    /** The next button. */
    method GoToNext(n: int)
      modifies this
      ensures currentIndex == Next(old(currentIndex), n)
    {
      currentIndex := if currentIndex < n - 1 then currentIndex + 1 else 0;
    }

    /** A key press; reports whether `onClose` is called. Escape closes without moving. */
    method KeyDown(key: Key, isOpen: bool, n: int) returns (closeRequested: bool)
      modifies this
      ensures currentIndex == KeyStep(old(currentIndex), n, isOpen, key)
      ensures closeRequested <==> isOpen && key.Escape?
    {
      closeRequested := false;
      if !isOpen {
        return;
      }
      match key
      case ArrowLeft => GoToPrevious(n);
      case ArrowRight => GoToNext(n);
      case Escape => closeRequested := true;
      case OtherKey =>
    }

    /** A thumbnail click jumps to that photo. */
    method SelectThumbnail(k: nat)
      modifies this
      ensures currentIndex == k
    {
      currentIndex := k;
    }
  }
}
