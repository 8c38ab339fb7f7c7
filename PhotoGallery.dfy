/**
 * The signed-in user's gallery: the photo list, the set of flipped cards, the multi-file add
 * (one upload and one row insert per file, best effort, in selection order) and the guarded
 * delete (row first, then the stored file, the local list updated only when both succeed).
 */
module PhotoGallery {
  import opened Wrappers
  import opened Strings
  import opened Collections
  import opened Types

  /** A file chosen in the file picker; only its name is read, its bytes go to the upload as-is. */
  datatype SelectedFile = SelectedFile(name: string)

  /** The shared metadata the add-photo modal submits for every selected file. */
  datatype Details = Details(title: string, description: Option<string>, dateTaken: Option<string>, reason: string)

  /** The `photos` row inserted for one uploaded file. */
  datatype NewPhotoRow = NewPhotoRow(
    user_id: string,
    title: string,
    description: Option<string>,
    date_taken: Option<string>,
    reason: string,
    image_url: string)

  /** What the environment does for one file: the clock reading, then the outcomes of its upload and of its insert. */
  datatype FileAttempt = FileAttempt(timestamp: nat, upload: Outcome<()>, insert: Outcome<()>)

  /** The storage name of a file: the timestamp, a dot, and the text after the last dot of the file's name. */
  function StoredName(timestamp: nat, fileName: string): string {
    NatToString(timestamp) + "." + LastSegment(fileName, '.')
  }

  /** The stored name keeps the original extension and never contains a slash when the file name does not. */
  lemma StoredNameParts(timestamp: nat, fileName: string)
    ensures LastSegment(StoredName(timestamp, fileName), '.') == LastSegment(fileName, '.')
    ensures StoredName(timestamp, fileName)[..|NatToString(timestamp)|] == NatToString(timestamp)
    ensures '/' !in fileName ==> '/' !in StoredName(timestamp, fileName)
  {
    var digits := NatToString(timestamp);
    var ext := LastSegment(fileName, '.');
    LastSegmentAfterSeparator(digits, '.', ext);
    assert StoredName(timestamp, fileName) == digits + ['.'] + ext;
  }

  /** The public URL the storage client issues for a stored name: the bucket's URL, a slash, the name. */
  function PublicUrl(bucketUrl: string, name: string): string {
    bucketUrl + "/" + name
  }

  /** The names the add uploads under, one per selected file, in selection order. */
  function UploadNames(files: seq<SelectedFile>, attempts: seq<FileAttempt>): (r: seq<string>)
    requires |files| == |attempts|
    ensures |r| == |files|
    decreases |files|
  {
    if files == [] then []
    else
      var n := |files| - 1;
      UploadNames(files[..n], attempts[..n]) + [StoredName(attempts[n].timestamp, files[n].name)]
  }

  /** The `k`-th upload is file `k`'s stored name. */
  lemma {:induction false} UploadNamesAt(files: seq<SelectedFile>, attempts: seq<FileAttempt>, k: nat)
    requires |files| == |attempts| && k < |files|
    ensures UploadNames(files, attempts)[k] == StoredName(attempts[k].timestamp, files[k].name)
    decreases |files|
  {
    var n := |files| - 1;
    if k < n {
      UploadNamesAt(files[..n], attempts[..n], k);
      assert files[..n][k] == files[k] && attempts[..n][k] == attempts[k];
    }
  }

  /** One more file adds its name after the names of the files before it. */
  lemma UploadNamesStep(files: seq<SelectedFile>, attempts: seq<FileAttempt>, i: nat)
    requires |files| == |attempts| && i < |files|
    ensures UploadNames(files[..i + 1], attempts[..i + 1])
         == UploadNames(files[..i], attempts[..i]) + [StoredName(attempts[i].timestamp, files[i].name)]
  {
    assert files[..i + 1][..i] == files[..i] && attempts[..i + 1][..i] == attempts[..i];
  }

  /** The row inserted for a file whose upload succeeded. */
  function FileRow(userId: string, details: Details, bucketUrl: string, file: SelectedFile, attempt: FileAttempt): NewPhotoRow {
    NewPhotoRow(userId, details.title, details.description, details.dateTaken, details.reason,
                PublicUrl(bucketUrl, StoredName(attempt.timestamp, file.name)))
  }

  /** Both the upload and the insert of this file succeeded. */
  predicate Stored(attempt: FileAttempt) {
    attempt.upload.Ok? && attempt.insert.Ok?
  }

  /** The rows the add inserts, in selection order: one per file whose upload and insert both succeeded. */
  function InsertedRows(userId: string, details: Details, bucketUrl: string, files: seq<SelectedFile>, attempts: seq<FileAttempt>): (r: seq<NewPhotoRow>)
    requires |files| == |attempts|
    ensures |r| <= |files|
    decreases |files|
  {
    if files == [] then []
    else
      var n := |files| - 1;
      InsertedRows(userId, details, bucketUrl, files[..n], attempts[..n])
        + (if Stored(attempts[n]) then [FileRow(userId, details, bucketUrl, files[n], attempts[n])] else [])
  }

  /** One more file adds its row, if it was stored, after the rows of the files before it. */
  lemma InsertedRowsStep(userId: string, details: Details, bucketUrl: string, files: seq<SelectedFile>, attempts: seq<FileAttempt>, i: nat)
    requires |files| == |attempts| && i < |files|
    ensures InsertedRows(userId, details, bucketUrl, files[..i + 1], attempts[..i + 1])
         == InsertedRows(userId, details, bucketUrl, files[..i], attempts[..i])
            + (if Stored(attempts[i]) then [FileRow(userId, details, bucketUrl, files[i], attempts[i])] else [])
  {
    assert files[..i + 1][..i] == files[..i] && attempts[..i + 1][..i] == attempts[..i];
  }

  /** How many files were stored: at most one per file. */
  function StoredCount(attempts: seq<FileAttempt>): (r: nat)
    ensures r <= |attempts|
  {
    if attempts == [] then 0
    else StoredCount(attempts[..|attempts| - 1]) + (if Stored(attempts[|attempts| - 1]) then 1 else 0)
  }

  /**
   * Every inserted row carries the signed-in user's id, the shared title, description, date
   * and reason, and the public URL of the stored name of one stored file.
   */
  lemma {:induction false} InsertedRowsShape(userId: string, details: Details, bucketUrl: string, files: seq<SelectedFile>, attempts: seq<FileAttempt>)
    requires |files| == |attempts|
    ensures |InsertedRows(userId, details, bucketUrl, files, attempts)| == StoredCount(attempts)
    ensures forall r :: r in InsertedRows(userId, details, bucketUrl, files, attempts) ==>
      && r.user_id == userId && r.title == details.title && r.description == details.description
      && r.date_taken == details.dateTaken && r.reason == details.reason
      && exists k :: 0 <= k < |files| && Stored(attempts[k]) && r.image_url == PublicUrl(bucketUrl, StoredName(attempts[k].timestamp, files[k].name))
  {
    if files != [] {
      var n := |files| - 1;
      InsertedRowsShape(userId, details, bucketUrl, files[..n], attempts[..n]);
      assert attempts[..n] == attempts[..|attempts| - 1];
      forall r | r in InsertedRows(userId, details, bucketUrl, files, attempts)
        ensures exists k :: 0 <= k < |files| && Stored(attempts[k]) && r.image_url == PublicUrl(bucketUrl, StoredName(attempts[k].timestamp, files[k].name))
      {
        if r in InsertedRows(userId, details, bucketUrl, files[..n], attempts[..n]) {
          var k :| 0 <= k < n && Stored(attempts[..n][k]) && r.image_url == PublicUrl(bucketUrl, StoredName(attempts[..n][k].timestamp, files[..n][k].name));
          assert attempts[..n][k] == attempts[k] && files[..n][k] == files[k];
        } else {
          assert Stored(attempts[n]) && r.image_url == PublicUrl(bucketUrl, StoredName(attempts[n].timestamp, files[n].name));
        }
      }
    }
  }

  /** The rows of two consecutive runs of files are the rows of the first run, then those of the second. */
  lemma {:induction false} InsertedRowsAppend(userId: string, details: Details, bucketUrl: string,
                                             f1: seq<SelectedFile>, a1: seq<FileAttempt>, f2: seq<SelectedFile>, a2: seq<FileAttempt>)
    requires |f1| == |a1| && |f2| == |a2|
    ensures InsertedRows(userId, details, bucketUrl, f1 + f2, a1 + a2)
         == InsertedRows(userId, details, bucketUrl, f1, a1) + InsertedRows(userId, details, bucketUrl, f2, a2)
    decreases |f2|
  {
    if f2 == [] {
      assert f1 + f2 == f1 && a1 + a2 == a1;
    } else {
      var n := |f2| - 1;
      InsertedRowsAppend(userId, details, bucketUrl, f1, a1, f2[..n], a2[..n]);
      assert (f1 + f2)[..|f1| + n] == f1 + f2[..n];
      assert (a1 + a2)[..|a1| + n] == a1 + a2[..n];
    }
  }

  /**
   * Best effort: a file whose upload or insert fails contributes no row, and the other files
   * insert exactly the rows they would insert had it not been selected.
   */
  lemma FailedFileSkipped(userId: string, details: Details, bucketUrl: string, files: seq<SelectedFile>, attempts: seq<FileAttempt>, k: nat)
    requires |files| == |attempts| && k < |files|
    requires !Stored(attempts[k])
    ensures InsertedRows(userId, details, bucketUrl, files, attempts)
         == InsertedRows(userId, details, bucketUrl, files[..k] + files[k + 1..], attempts[..k] + attempts[k + 1..])
  {
    var pre, post := files[..k], files[k + 1..];
    var aPre, aPost := attempts[..k], attempts[k + 1..];
    assert files == (pre + [files[k]]) + post;
    assert attempts == (aPre + [attempts[k]]) + aPost;
    InsertedRowsAppend(userId, details, bucketUrl, pre + [files[k]], aPre + [attempts[k]], post, aPost);
    InsertedRowsAppend(userId, details, bucketUrl, pre, aPre, [files[k]], [attempts[k]]);
    OneFile(userId, details, bucketUrl, files[k], attempts[k]);
    InsertedRowsAppend(userId, details, bucketUrl, pre, aPre, post, aPost);
  }

  /** A single file inserts its row exactly when it is stored. */
  lemma OneFile(userId: string, details: Details, bucketUrl: string, file: SelectedFile, attempt: FileAttempt)
    ensures InsertedRows(userId, details, bucketUrl, [file], [attempt])
         == if Stored(attempt) then [FileRow(userId, details, bucketUrl, file, attempt)] else []
  {
    assert [file][..0] == [] && [attempt][..0] == [];
  }

  /** The first photo with this id (`photos.find(p => p.id === id)`). */
  function FindById(photos: seq<Photo>, id: string): (r: Option<Photo>)
    ensures r.Some? <==> exists p :: p in photos && p.id == id
    ensures r.Some? ==> r.value.id == id && exists k :: 0 <= k < |photos| && photos[k] == r.value && forall j :: 0 <= j < k ==> photos[j].id != id
  {
    if photos == [] then None
    else if photos[0].id == id then Some(photos[0])
    else
      assert forall p :: p in photos[1..] ==> p in photos;
      assert photos == [photos[0]] + photos[1..];
      FindById(photos[1..], id)
  }

  /** `photos.filter(p => p.id !== id)`. */
  function RemoveById(photos: seq<Photo>, id: string): (r: seq<Photo>)
    ensures forall p :: p in r <==> p in photos && p.id != id
    ensures (forall p :: p in photos ==> p.id != id) ==> r == photos
    ensures |r| <= |photos|
  {
    if photos == [] then []
    else
      assert photos == [photos[0]] + photos[1..];
      var rest := RemoveById(photos[1..], id);
      if photos[0].id == id then rest else [photos[0]] + rest
  }

  /** Filtering a concatenation filters each part: the photos that stay keep their order. */
  lemma {:induction false} RemoveByIdAppend(a: seq<Photo>, b: seq<Photo>, id: string)
    ensures RemoveById(a + b, id) == RemoveById(a, id) + RemoveById(b, id)
  {
    if a != [] {
      var head: seq<Photo> := if a[0].id == id then [] else [a[0]];
      assert (a + b)[0] == a[0] && (a + b)[1..] == a[1..] + b;
      assert RemoveById(a + b, id) == head + RemoveById(a[1..] + b, id);
      assert RemoveById(a, id) == head + RemoveById(a[1..], id);
      RemoveByIdAppend(a[1..], b, id);
      ConcatAssoc(head, RemoveById(a[1..], id), RemoveById(b, id));
    } else {
      assert a + b == b;
    }
  }

  /** The storage key of a photo: the text after the last slash of its `image_url`, if there is one and it is non-empty. */
  function StorageKey(p: Photo): (r: Option<string>)
    ensures r.Some? <==> p.image_url.Some? && LastSegment(p.image_url.value, '/') != ""
    ensures r.Some? ==> r.value == LastSegment(p.image_url.value, '/') && '/' !in r.value
  {
    match p.image_url
    case None => None
    case Some(url) =>
      var name := LastSegment(url, '/');
      if name == "" then None else Some(name)
  }

  /** The key a delete removes is the name the add stored the file under (a file name has no slash). */
  lemma StorageKeyOfAddedPhoto(p: Photo, bucketUrl: string, timestamp: nat, fileName: string)
    requires '/' !in fileName
    requires p.image_url == Some(PublicUrl(bucketUrl, StoredName(timestamp, fileName)))
    ensures StorageKey(p) == Some(StoredName(timestamp, fileName))
  {
    StoredNameParts(timestamp, fileName);
    LastSegmentAfterSeparator(bucketUrl, '/', StoredName(timestamp, fileName));
    assert PublicUrl(bucketUrl, StoredName(timestamp, fileName)) == bucketUrl + ['/'] + StoredName(timestamp, fileName);
  }

  /** The gallery component's state. */
  class GalleryState {
    var photos: seq<Photo>
    var flippedIds: set<string>
    var isModalOpen: bool
    var selectedFiles: seq<SelectedFile>
    var isUploading: bool
    var categories: seq<Category>

    constructor ()
      ensures photos == [] && flippedIds == {} && !isModalOpen && selectedFiles == [] && !isUploading && categories == []
    {
      photos, flippedIds, isModalOpen, selectedFiles, isUploading, categories := [], {}, false, [], false, [];
    }

    /** Reloading the list: the returned rows (none read as empty); on error the list is kept. */
    method FetchPhotos(rows: Outcome<Option<seq<Photo>>>)
      modifies this`photos
      ensures photos == if rows.Ok? then rows.value.GetOr([]) else old(photos)
    {
      if rows.Ok? {
        photos := rows.value.GetOr([]);
      }
    }

    method FetchCategories(rows: Outcome<Option<seq<Category>>>)
      modifies this`categories
      ensures categories == if rows.Ok? then rows.value.GetOr([]) else old(categories)
    {
      if rows.Ok? {
        categories := rows.value.GetOr([]);
      }
    }

    /** Flipping a card toggles exactly its id in the flipped set. */
    method Flip(id: string)
      modifies this`flippedIds
      ensures flippedIds == Toggle(old(flippedIds), id)
      ensures id in flippedIds <==> id !in old(flippedIds)
      ensures forall other :: other != id ==> (other in flippedIds <==> other in old(flippedIds))
    {
      flippedIds := Toggle(flippedIds, id);
    }

    /** Choosing files in the picker opens the details modal for them. */
    method SelectFiles(files: seq<SelectedFile>)
      modifies this`selectedFiles, this`isModalOpen
      ensures selectedFiles == files && isModalOpen
    {
      selectedFiles := files;
      isModalOpen := true;
    }

    /** Closing the details modal discards the selection. */
    method CloseModal()
      modifies this`selectedFiles, this`isModalOpen
      ensures selectedFiles == [] && !isModalOpen
    {
      selectedFiles := [];
      isModalOpen := false;
    }

    /**
     * The add's loop over the selected files: each file is uploaded under its stored name; a
     * failed upload skips the file, and so does a failed insert of its row. Returns the names
     * sent to the upload and the rows the inserts stored.
     */
    method UploadAll(userId: string, details: Details, bucketUrl: string, files: seq<SelectedFile>, attempts: seq<FileAttempt>)
      returns (uploads: seq<string>, inserted: seq<NewPhotoRow>)
      requires |attempts| == |files|
      ensures uploads == UploadNames(files, attempts)
      ensures inserted == InsertedRows(userId, details, bucketUrl, files, attempts)
    {
      uploads, inserted := [], [];
      var i := 0;
      while i < |files|
        invariant 0 <= i <= |files|
        invariant uploads == UploadNames(files[..i], attempts[..i])
        invariant inserted == InsertedRows(userId, details, bucketUrl, files[..i], attempts[..i])
      {
        InsertedRowsStep(userId, details, bucketUrl, files, attempts, i);
        UploadNamesStep(files, attempts, i);
        var attempt := attempts[i];
        var fileName := StoredName(attempt.timestamp, files[i].name);
        uploads := uploads + [fileName];
        if attempt.upload.Err? {
          i := i + 1;
          continue;
        }
        var publicUrl := PublicUrl(bucketUrl, fileName);
        if attempt.insert.Err? {
          i := i + 1;
          continue;
        }
        var row := NewPhotoRow(userId, details.title, details.description, details.dateTaken, details.reason, publicUrl);
        assert row == FileRow(userId, details, bucketUrl, files[i], attempt);
        inserted := inserted + [row];
        i := i + 1;
      }
      assert files[..i] == files && attempts[..i] == attempts;
    }

    /**
     * The add: with no signed-in user nothing is uploaded or inserted. Otherwise every selected
     * file, in order, is uploaded under its stored name; a failed upload or insert skips only
     * that file. Then the list is reloaded, the selection cleared and the modal closed.
     * `attempts[i]` is what the environment does for file `i`; `refetch` is the reload's outcome.
     * Returns the names sent to the upload and the rows the inserts stored.
     */
    method AddPhotos(details: Details, user: Option<string>, bucketUrl: string, attempts: seq<FileAttempt>,
                     refetch: Outcome<Option<seq<Photo>>>)
      returns (uploads: seq<string>, inserted: seq<NewPhotoRow>)
      requires |attempts| == |selectedFiles|
      modifies this`photos, this`selectedFiles, this`isModalOpen, this`isUploading
      ensures !isUploading
      ensures user.None? ==>
        && uploads == [] && inserted == []
        && photos == old(photos) && selectedFiles == old(selectedFiles) && isModalOpen == old(isModalOpen)
      ensures user.Some? ==>
        && uploads == UploadNames(old(selectedFiles), attempts)
        && inserted == InsertedRows(user.value, details, bucketUrl, old(selectedFiles), attempts)
        && (refetch.Ok? ==> photos == refetch.value.GetOr([]))
        && (refetch.Err? ==> photos == old(photos))
        && selectedFiles == [] && !isModalOpen
    {
      isUploading := true;
      uploads, inserted := [], [];
      if user.None? {
        isUploading := false;
        return;
      }
      var files, listed := selectedFiles, photos;
      assert files == old(selectedFiles) && listed == old(photos);
      uploads, inserted := UploadAll(user.value, details, bucketUrl, files, attempts);
      FetchPhotos(refetch);
      selectedFiles := [];
      isModalOpen := false;
      isUploading := false;

    }

    /**
     * The delete: an id not in the list does nothing. Otherwise the row delete is sent; if it
     * succeeds and the photo has a storage key, that file is removed. Only when every sent
     * call succeeded are the photos with that id dropped from the list.
     */
    method DeletePhoto(id: string, rowDelete: Outcome<()>, storageRemove: Outcome<()>)
      returns (deleteSent: bool, removeSent: Option<string>)
      modifies this`photos
      ensures deleteSent <==> exists p :: p in old(photos) && p.id == id
      ensures removeSent == if deleteSent && rowDelete.Ok? then StorageKey(FindById(old(photos), id).value) else None
      ensures photos == if deleteSent && rowDelete.Ok? && (removeSent.None? || storageRemove.Ok?)
                        then RemoveById(old(photos), id) else old(photos)
    {
      deleteSent, removeSent := false, None;
      var found := FindById(photos, id);
      if found.None? {
        return;
      }
      deleteSent := true;
      if rowDelete.Err? {
        return;
      }
      removeSent := StorageKey(found.value);
      if removeSent.Some? && storageRemove.Err? {
        return;
      }
      photos := RemoveById(photos, id);
    }
  }
}
