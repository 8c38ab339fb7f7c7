# Photo memories app — a model of its handler logic

The application is a React front end over a hosted backend (auth, tables, file storage and
RPCs). Signed-in users upload photos with a title, a date and a reason, sort them into
categories, flip or slide through cards, filter by tag, and search other users' public
collections. Almost all of the work is done by the backend. What is left in the front end is
the sequential logic of the event handlers. Each handler is modelled here as a deterministic
state transition of its component. The outcome of every backend call is an input.

- Each component with state is a `class`. Its fields are the component's `useState` values,
  and each handler is a method. A method names in `modifies` exactly the fields the handler
  sets. It states the whole new state, and it returns the requests the handler sends, so
  that "no call is made" can be stated.
- Every backend call is an `Outcome<T> = Ok(value) | Err(code, message)` parameter
  (module `Wrappers`). A returned error and a thrown one are the same `Err` when the handler
  treats them the same way.
- The pure parts are functions with lemmas about them:
  - the category toggle, the saved photo, the storage names and inserted rows of the
    multi-file add, and the filter of the delete;
  - the wrap-around index of the gallery modal;
  - the sorted tag facets and the flattening of category joins;
  - the sign-up checks, the display names, the initials and the plurals.
- `Strings` models the JavaScript string operations the handlers use: `trim` with the
  ECMAScript white-space set, `split(sep).pop()`, number formatting in template literals,
  `toUpperCase` on ASCII letters, and the default order of `Array.prototype.sort`.
- `Collections` models `Array.from(new Set(...))`, `filter`, `slice` and the copy-and-toggle
  of a `Set`.

One module per source file: `PhotoCard`, `PhotoGallery`, `PhotoTile`, `PhotoGalleryModal`,
`TagFilter`, `MainLayout`, `Auth`, `UserSearch`, `SearchPage`, `UserPublicProfile`, and
`UserProfile`. `Types` holds the entity shapes from `src/types.ts`. The `tags`,
`is_batch_tile` and `batch_photos` properties are read by the tile component but are missing
from the declared `Photo` interface. They are optional fields here, as are the search
result's `first_name` and `last_name`.

Where the code and the written description of the application disagree, the model follows the
code. The delete is the main case. A row delete that succeeds followed by a storage removal
that fails throws inside the handler, before the local filter runs. So the photo stays in the
local list (`PhotoGallery.GalleryState.DeletePhoto`).

## Model

| member | source | states |
|---|---|---|
| Strings.TrimIsCore | src/components/PhotoCard.tsx:74-82 | `trim` returns the part of the string between an all-white-space prefix and an all-white-space suffix |
| Strings.TrimEdges | src/components/PhotoCard.tsx:82 | a trimmed string is empty or neither starts nor ends with white space |
| Strings.BlankIffAllSpace | src/pages/SearchPage.tsx:14 | `!s.trim()` holds exactly when every character of `s` is white space |
| Strings.TrimIdempotent | src/components/Auth.tsx:64-65 | trimming an already trimmed name changes nothing |
| Strings.SpaceRunEnd | src/pages/SearchPage.tsx:21 | the first position from `i` on that is not white space: everything before it is white space |
| Strings.SpaceRunStart | src/pages/SearchPage.tsx:21 | where the trailing white space of a prefix starts: everything after it is white space and the character before it is not |
| Strings.TrimStartKeeps | src/components/Auth.tsx:64-65 | a string that does not start with white space is unchanged by trimming its start |
| Strings.TrimEndKeeps | src/components/Auth.tsx:64-65 | a string that does not end with white space is unchanged by trimming its end |
| Strings.TrimStart | src/pages/SearchPage.tsx:21 | the result is a suffix of the input, what was dropped is all white space, and the result does not start with white space |
| Strings.TrimEnd | src/pages/SearchPage.tsx:21 | the result is a prefix of the input, what was dropped is all white space, and the result does not end with white space |
| Strings.IsSpace | src/pages/SearchPage.tsx:14 | the characters `trim` removes: the ECMAScript white-space and line-terminator characters, including the no-break space, the byte order mark and the Unicode space separators |
| Strings.Trim | src/pages/SearchPage.tsx:14-21 | `trim` is the leading trim followed by the trailing trim; what it returns is stated by `TrimIsCore`, `TrimEdges` and `TrimIdempotent` |
| Strings.IsBlank | src/pages/SearchPage.tsx:14 | `!s.trim()`: the trimmed string is empty; `BlankIffAllSpace` shows this means all white space |
| Strings.SegmentStart | src/PhotoGallery.tsx:81 | the position after the last separator before `j` (or 0): no separator lies between it and `j` |
| Strings.LastSegment | src/PhotoGallery.tsx:81 | `split(sep).pop()` never contains the separator |
| Strings.LastSegmentIsSuffix | src/PhotoGallery.tsx:81 | the last segment is a suffix of the string, either the whole string or preceded by a separator |
| Strings.LastSegmentAfterSeparator | src/PhotoGallery.tsx:146 | the text after a separator is recovered whatever precedes that separator, when it contains no separator itself |
| Strings.LastSegmentWithoutSeparator | src/PhotoGallery.tsx:81 | a string without separators is its own last segment |
| Strings.DigitChar | src/PhotoGallery.tsx:82 | a digit value prints as a decimal digit character |
| Strings.NatToString | src/PhotoGallery.tsx:82 | `${timestamp}` is a non-empty string of decimal digits without a leading zero |
| Strings.NatToStringRoundTrip | src/PhotoGallery.tsx:80-82 | reading the printed digits back gives the timestamp, so distinct timestamps print differently |
| Strings.UpperChar | src/components/UserProfile.tsx:43 | `toUpperCase` maps a lower-case ASCII letter to its capital and leaves every other character alone |
| Strings.ToUpper | src/components/UserProfile.tsx:43 | `toUpperCase` keeps the length and upper-cases each character |
| Strings.Truthy | src/components/UserSearch.tsx:55 | an optional string is truthy exactly when it is present and non-empty |
| Strings.Less | src/components/TagFilter.tsx:41 | the default `sort()` order on strings: lexicographic by character, a proper prefix first; its order properties are the lemmas below |
| Strings.LessIrreflexive | src/components/TagFilter.tsx:41 | no string sorts before itself |
| Strings.LessTransitive | src/components/TagFilter.tsx:41 | the default sort order is transitive |
| Strings.LessTotal | src/components/TagFilter.tsx:41 | of two different strings one sorts before the other |
| Strings.LessAsymmetric | src/components/TagFilter.tsx:41 | two strings never sort before each other both ways |
| Strings.InsertSorted | src/components/TagFilter.tsx:41 | inserting a new string into an ascending list keeps it ascending, with exactly that string added |
| Strings.SortDistinct | src/components/TagFilter.tsx:41 | `sort()` on distinct strings gives an ascending list of the same strings |
| Strings.AscendingFirst | src/components/TagFilter.tsx:41 | the first string of an ascending list sorts before every other one in it |
| Strings.LessStrict | src/components/TagFilter.tsx:41 | the sort order is strict |
| Strings.AscendingUnique | src/components/TagFilter.tsx:41 | two ascending lists with the same strings are equal: the sorted order is unique |
| Collections.Dedup | src/components/PhotoCard.tsx:116 | `Array.from(new Set(xs))` has no repeats, has the same members as `xs`, and is `xs` itself when `xs` has no repeats |
| Collections.DedupSnoc | src/components/PhotoCard.tsx:116 | a value added at the end of the input is added at the end of the output unless already present, so each value sits at its first occurrence |
| Collections.OccursOnce | src/components/PhotoCard.tsx:99 | in a list without repeats a member occurs exactly once |
| Collections.RemoveAll | src/components/PhotoCard.tsx:111 | `filter(c => c !== x)` drops every occurrence of `x` and keeps every other member |
| Collections.NoDupTail | src/components/PhotoCard.tsx:111 | the tail of a list without repeats has none and does not contain the head |
| Collections.RemoveAllCons | src/components/PhotoCard.tsx:111 | filtering a list keeps its head exactly when the head is not the removed value |
| Collections.RemoveAllAppend | src/components/PhotoCard.tsx:111 | filtering a concatenation filters each part, so the kept names stay in order |
| Collections.ConcatAssoc | src/PhotoGallery.tsx:156 | concatenating lists is associative |
| Collections.Toggle | src/PhotoGallery.tsx:54-64 | copying a set and adding or deleting `x` flips `x`'s membership and no other |
| Collections.ToggleTwice | src/PhotoGallery.tsx:54-64 | toggling the same id twice restores the set |
| Collections.Take | src/components/PhotoTile.tsx:130 | `slice(0, n)` is the prefix of length `min(n, length)` |
| Types.CategoryInsert | src/components/PhotoCard.tsx:74-82 | a row is inserted exactly when the typed name is not blank and a user is signed in; it carries the trimmed name and the user's id, and that name neither starts nor ends with white space |
| Types.DisplayName | src/components/UserSearch.tsx:55-60 | "first last" exactly when both names are non-empty, otherwise the email |
| Types.DisplayNameSplits | src/pages/SearchPage.tsx:103-106 | with both names shown, the name splits back at its first space into the first and last names when the first has no space |
| Types.CountNoun | src/pages/SearchPage.tsx:119 | the noun is singular exactly when the count is one, otherwise it takes an "s" |
| Types.SamplePreview | src/pages/SearchPage.tsx:125-129 | the first four samples: all of them when there are fewer than four, exactly four otherwise, none exactly when the list is absent or empty |
| Types.SentinelLabel | src/components/TagFilter.tsx:76 | a dropdown label shows the given "all" text for the `'all'` sentinel and the selected name itself otherwise |
| PhotoCard.InitialDraft | src/components/PhotoCard.tsx:13-16 | the draft is the photo itself with its absent category list made empty, nothing else changed |
| PhotoCard.DraftCategories | src/components/PhotoCard.tsx:109 | the draft's category list, an absent one read as empty |
| PhotoCard.ToggleCategory | src/components/PhotoCard.tsx:107-119 | a toggled name is in the result exactly when it was not in the draft, every other name's membership is unchanged, and there are no repeats |
| PhotoCard.ToggleAppends | src/components/PhotoCard.tsx:109-116 | on a list without repeats a newly checked name is appended and the others keep their order |
| PhotoCard.ToggleRemoves | src/components/PhotoCard.tsx:109-116 | on a list without repeats unchecking a name is filtering it out |
| PhotoCard.ToggleUndo | src/components/PhotoCard.tsx:107-119 | checking and then unchecking a name restores the category list exactly |
| PhotoCard.AddedNameOnce | src/components/PhotoCard.tsx:97-100 | after an add the returned name occurs exactly once in the draft and every other name is kept |
| PhotoCard.Saved | src/components/PhotoCard.tsx:177-185 | the photo handed to `onUpdate` is the original with only title, date_taken, reason, is_public and the deduplicated categories taken from the draft |
| PhotoCard.ClickOutcome | src/components/PhotoCard.tsx:166-175 | a click does nothing exactly when editing or in a public view; otherwise slide mode opens fullscreen and flip mode requests a flip |
| PhotoCard.CardState.constructor | src/components/PhotoCard.tsx:11-20 | a new card is not editing, not fullscreen, has no categories and an empty input, and its draft is the initial draft of the photo |
| PhotoCard.CardState.Rerender | src/components/PhotoCard.tsx:11-16 | new props replace the old; the local state, the draft included, persists |
| PhotoCard.CardState.FetchCategories | src/components/PhotoCard.tsx:25-70 | outside a public view, with a user and no error, the list becomes the returned rows (none read as empty); otherwise it is unchanged |
| PhotoCard.CardState.StartEditing | src/components/PhotoCard.tsx:372-374 | the Edit button enters edit mode |
| PhotoCard.CardState.EditTitle | src/components/PhotoCard.tsx:225 | only the draft's title changes |
| PhotoCard.CardState.EditReason | src/components/PhotoCard.tsx:249 | only the draft's reason changes |
| PhotoCard.CardState.EditPublic | src/components/PhotoCard.tsx:299 | only the draft's visibility changes |
| PhotoCard.CardState.TypeNewCategory | src/components/PhotoCard.tsx:281 | the input holds the typed text |
| PhotoCard.CardState.CategoryToggle | src/components/PhotoCard.tsx:107-119 | only the draft's category list changes, to its toggle |
| PhotoCard.CardState.AddCategory | src/components/PhotoCard.tsx:72-105 | the insert sent is the trimmed name with the user (none when blank or signed out); a failure changes nothing and alerts exactly on code 23505; a success appends the row, adds its name to the draft once and clears the input |
| PhotoCard.CardState.Save | src/components/PhotoCard.tsx:177-187 | hands the saved photo of the current draft to `onUpdate` and leaves edit mode |
| PhotoCard.CardState.Cancel | src/components/PhotoCard.tsx:312-315 | the draft is reset to the photo prop and edit mode ends |
| PhotoCard.CardState.CardClick | src/components/PhotoCard.tsx:166-175 | a flip is requested and fullscreen opened exactly as the click outcome says, and nothing else changes |
| PhotoCard.CardState.CloseFullscreen | src/components/PhotoCard.tsx:480 | the close button leaves fullscreen |
| PhotoGallery.StoredNameParts | src/PhotoGallery.tsx:80-82 | the stored name starts with the timestamp's digits, keeps the file name's extension, and has no slash when the file name has none |
| PhotoGallery.StoredName | src/PhotoGallery.tsx:80-82 | the storage name is the timestamp's digits, a dot, and the text after the last dot of the file name; its parts are stated by `StoredNameParts` |
| PhotoGallery.FileRow | src/PhotoGallery.tsx:100-109 | the inserted row: the user's id, the shared title, description, date and reason, and the public URL of the stored name |
| PhotoGallery.Stored | src/PhotoGallery.tsx:91-114 | a file is stored exactly when neither its upload nor its insert reports an error |
| PhotoGallery.InsertedRows | src/PhotoGallery.tsx:79-115 | no more rows are inserted than files were selected; the lemmas below give the rows exactly |
| PhotoGallery.StoredCount | src/PhotoGallery.tsx:79-115 | the number of stored files is at most the number of files |
| PhotoGallery.UploadNames | src/PhotoGallery.tsx:79-89 | one upload per selected file |
| PhotoGallery.UploadNamesAt | src/PhotoGallery.tsx:79-89 | the k-th upload is the stored name of the k-th file, in selection order |
| PhotoGallery.UploadNamesStep | src/PhotoGallery.tsx:79-89 | each file's name is uploaded after those of the files before it |
| PhotoGallery.InsertedRowsStep | src/PhotoGallery.tsx:91-114 | each file adds its row, if both its upload and insert succeed, after the rows of the files before it |
| PhotoGallery.InsertedRowsShape | src/PhotoGallery.tsx:96-109 | one row per stored file, each with the user's id, the shared title, description, date and reason, and the public URL of a stored file's name |
| PhotoGallery.InsertedRowsAppend | src/PhotoGallery.tsx:79-115 | the rows of two consecutive runs of files are those of the first run followed by those of the second |
| PhotoGallery.FailedFileSkipped | src/PhotoGallery.tsx:91-114 | a file whose upload or insert fails adds no row, and the others insert what they would have inserted without it |
| PhotoGallery.OneFile | src/PhotoGallery.tsx:91-114 | a single file inserts its row exactly when its upload and its insert succeed |
| PhotoGallery.FindById | src/PhotoGallery.tsx:133-134 | `find` succeeds exactly when some photo has the id, and returns the first such photo |
| PhotoGallery.RemoveById | src/PhotoGallery.tsx:156 | the filter keeps exactly the photos with another id, and is the identity when no photo has the id |
| PhotoGallery.RemoveByIdAppend | src/PhotoGallery.tsx:156 | filtering a concatenation filters each part, so the kept photos stay in order |
| PhotoGallery.StorageKey | src/PhotoGallery.tsx:146-147 | a file is removed exactly when the text after the last slash of `image_url` is non-empty, and that text is the key |
| PhotoGallery.StorageKeyOfAddedPhoto | src/PhotoGallery.tsx:146-147 | for a photo the add created, the delete removes exactly the stored name the add uploaded |
| PhotoGallery.GalleryState.constructor | src/PhotoGallery.tsx:14-19 | the gallery starts empty, with nothing flipped, no selection and the modal closed |
| PhotoGallery.GalleryState.FetchPhotos | src/PhotoGallery.tsx:27-39 | the list becomes the returned rows (none read as empty); on error it is kept |
| PhotoGallery.GalleryState.FetchCategories | src/PhotoGallery.tsx:41-52 | the categories become the returned rows (none read as empty); on error they are kept |
| PhotoGallery.GalleryState.Flip | src/PhotoGallery.tsx:54-64 | exactly the given id changes membership in the flipped set |
| PhotoGallery.GalleryState.SelectFiles | src/PhotoGallery.tsx:66-70 | the chosen files are selected and the modal opens |
| PhotoGallery.GalleryState.CloseModal | src/PhotoGallery.tsx:235-237 | closing the modal discards the selection |
| PhotoGallery.GalleryState.UploadAll | src/PhotoGallery.tsx:79-115 | the loop uploads each file's stored name in order and inserts exactly the rows of the files whose upload and insert succeed |
| PhotoGallery.GalleryState.AddPhotos | src/PhotoGallery.tsx:72-130 | signed out, nothing is uploaded or inserted and the state is kept; signed in, the uploads and rows are those of the loop, the list is reloaded, the selection cleared and the modal closed; uploading ends either way |
| PhotoGallery.GalleryState.DeletePhoto | src/PhotoGallery.tsx:132-160 | an unknown id sends nothing; otherwise the row delete is sent, the storage key is removed only after it succeeds, and the photos with that id are filtered out only when every call sent succeeded |
| PhotoTile.TagBadges | src/components/PhotoTile.tsx:128-143 | no tag row for absent or empty tags; otherwise the first three tags (all of them when there are at most three), and an overflow badge showing `length - 3` exactly when there are more than three |
| PhotoTile.TagBadgesAccountForAll | src/components/PhotoTile.tsx:130-141 | the shown tags are a prefix of the tags and, with the overflow number, account for every tag |
| PhotoTile.IsBatch | src/components/PhotoTile.tsx:42 | a photo expands into a batch exactly when `is_batch_tile` is true and `batch_photos` is present |
| PhotoTile.BatchCards | src/components/PhotoTile.tsx:83-93 | one card per batch member, in order, flipped exactly when its id is in the flipped set |
| PhotoTile.Render | src/components/PhotoTile.tsx:42-56 | a plain card with the tile's own props exactly when the photo is not a batch tile or lacks members; otherwise the member count, with the members' cards when expanded and the tag row in slide mode |
| PhotoTile.TileState.constructor | src/components/PhotoTile.tsx:16-17 | a tile starts collapsed with no card flipped |
| PhotoTile.TileState.View | src/components/PhotoTile.tsx:42-178 | the tile renders its props through `Render` with its own expanded flag and expanded flipped set |
| PhotoTile.TileState.ExpandedFlip | src/components/PhotoTile.tsx:19-29 | exactly the given id changes membership in the expanded flipped set |
| PhotoTile.TileState.Expand | src/components/PhotoTile.tsx:105 | a click on a collapsed tile expands it |
| PhotoTile.TileState.Collapse | src/components/PhotoTile.tsx:71 | the close button collapses the tile |
| PhotoTile.TileState.DeleteFromBatch | src/components/PhotoTile.tsx:31-35 | the parent receives the same id |
| PhotoTile.TileState.UpdateInBatch | src/components/PhotoTile.tsx:37-39 | the parent receives the same photo |
| PhotoTile.ExpandedFlipChangesOneCard | src/components/PhotoTile.tsx:83-93 | after an expanded flip the card with that id shows its other face and every other card is as before |
| PhotoGalleryModal.Previous | src/components/PhotoGalleryModal.tsx:39 | one step back, from the first photo to the last, staying in range |
| PhotoGalleryModal.Next | src/components/PhotoGalleryModal.tsx:40 | one step forward, from the last photo to the first, staying in range |
| PhotoGalleryModal.NextPreviousInverse | src/components/PhotoGalleryModal.tsx:39-40 | in range, a step forward and a step back undo each other in either order |
| PhotoGalleryModal.ForwardCounts | src/components/PhotoGalleryModal.tsx:40 | short of the end, k steps forward move exactly k places |
| PhotoGalleryModal.ForwardCompose | src/components/PhotoGalleryModal.tsx:40 | a steps and then b steps forward are a + b steps |
| PhotoGalleryModal.ForwardFullCircle | src/components/PhotoGalleryModal.tsx:40 | n steps forward return to the starting photo |
| PhotoGalleryModal.Forward | src/components/PhotoGalleryModal.tsx:40 | repeated next steps from an index in range stay in range |
| PhotoGalleryModal.KeyStep | src/components/PhotoGalleryModal.tsx:20-29 | a closed modal ignores keys; left and right step back and forward; Escape and other keys keep the index |
| PhotoGalleryModal.Replay | src/components/PhotoGalleryModal.tsx:20-29 | a run of key events while closed leaves the index where it was |
| PhotoGalleryModal.ReplayStaysInRange | src/components/PhotoGalleryModal.tsx:20-29 | no run of key events takes an index in range out of range |
| PhotoGalleryModal.Render | src/components/PhotoGalleryModal.tsx:36-141 | nothing exactly when closed or empty; otherwise the photo at the index (none when out of range, where the render fails), and the navigation and the "k of n" counter exactly when there is more than one photo |
| PhotoGalleryModal.KeysKeepRenderable | src/components/PhotoGalleryModal.tsx:20-41 | from a valid opening index, no run of key events leads to a failing render, and the counter stays between 1 and the number of photos |
| PhotoGalleryModal.ModalState.constructor | src/components/PhotoGalleryModal.tsx:13 | the index starts at the opening index |
| PhotoGalleryModal.ModalState.ResetTo | src/components/PhotoGalleryModal.tsx:15-17 | a new opening index replaces the current one |
| PhotoGalleryModal.ModalState.GoToPrevious | src/components/PhotoGalleryModal.tsx:39 | the previous button steps back |
| PhotoGalleryModal.ModalState.GoToNext | src/components/PhotoGalleryModal.tsx:40 | the next button steps forward |
| PhotoGalleryModal.ModalState.KeyDown | src/components/PhotoGalleryModal.tsx:20-29 | the index moves as the key step says, and `onClose` is called exactly for Escape while open |
| PhotoGalleryModal.ModalState.SelectThumbnail | src/components/PhotoGalleryModal.tsx:124 | thumbnail k shows photo k |
| TagFilter.TagNames | src/components/TagFilter.tsx:40 | the rows' tag names in row order, none when no data came back |
| TagFilter.Returned | src/components/TagFilter.tsx:40 | a tag name came back exactly when some returned row carries it |
| TagFilter.Facets | src/components/TagFilter.tsx:40-41 | the options are exactly the returned tag names, without repeats, in ascending order |
| TagFilter.FacetsDependOnNamesOnly | src/components/TagFilter.tsx:40-41 | the options depend only on which names came back, not on row order or repeats |
| TagFilter.Label | src/components/TagFilter.tsx:76 | "All Tags" for the sentinel, the tag otherwise |
| TagFilter.ShowsClearFilter | src/components/TagFilter.tsx:143 | the "Clear Filter" option is offered exactly when a tag other than the sentinel is selected |
| TagFilter.Initial | src/components/TagFilter.tsx:132 | an option's badge is its first character upper-cased, nothing for an empty tag |
| TagFilter.TagFilterState.constructor | src/components/TagFilter.tsx:11-13 | no options, the dropdown closed, loading |
| TagFilter.TagFilterState.FetchAvailableTags | src/components/TagFilter.tsx:19-47 | the query is sent exactly when a user is signed in; the options become the facets of the rows, or are kept without a user or on error; loading ends |
| TagFilter.TagFilterState.TagSelect | src/components/TagFilter.tsx:49-52 | exactly the chosen tag is reported and the dropdown closes |
| TagFilter.TagFilterState.ClearFilter | src/components/TagFilter.tsx:54-57 | the sentinel `'all'` is reported and the dropdown closes |
| TagFilter.TagFilterState.ToggleDropdown | src/components/TagFilter.tsx:71 | the button opens or closes the dropdown |
| TagFilter.TagFilterState.CloseDropdown | src/components/TagFilter.tsx:86 | the backdrop closes the dropdown |
| MainLayout.ToggleView | src/layouts/MainLayout.tsx:206 | the toggle always changes the mode |
| MainLayout.ToggleViewTwice | src/layouts/MainLayout.tsx:206 | toggling twice restores the mode |
| MainLayout.ToggleCaption | src/layouts/MainLayout.tsx:211 | the caption names the mode the toggle switches to |
| MainLayout.CategoryLabel | src/layouts/MainLayout.tsx:136 | "All Categories" for the sentinel, the category otherwise |
| MainLayout.LayoutState.constructor | src/layouts/MainLayout.tsx:14-20 | flip mode, every category selected, nothing open, no categories, an empty input |
| MainLayout.LayoutState.FetchCategories | src/layouts/MainLayout.tsx:50-70 | with a user and no error the list becomes the returned rows (none read as empty); otherwise it is kept |
| MainLayout.LayoutState.CategorySelect | src/layouts/MainLayout.tsx:72-76 | the choice is selected and both the dropdown and the mobile menu close |
| MainLayout.LayoutState.ToggleViewMode | src/layouts/MainLayout.tsx:206 | the mode becomes the toggled mode |
| MainLayout.LayoutState.ToggleCategoryDropdown | src/layouts/MainLayout.tsx:127 | the button opens or closes the dropdown |
| MainLayout.LayoutState.ToggleMobileMenu | src/layouts/MainLayout.tsx:233 | the button opens or closes the mobile menu |
| MainLayout.LayoutState.StartAddingCategory | src/layouts/MainLayout.tsx:298 | the add form is shown |
| MainLayout.LayoutState.TypeNewCategory | src/layouts/MainLayout.tsx:284 | the input holds the typed text |
| MainLayout.LayoutState.AddCategory | src/layouts/MainLayout.tsx:78-106 | the insert sent is the trimmed name with the user (none when blank or signed out); a success appends exactly the returned row, clears the input and closes the form; a failure changes nothing |
| Auth.SignupError | src/components/Auth.tsx:35-43 | sign-up is refused exactly when a name is blank, the passwords differ, or the password is under six characters, and the message is that of the first check that fails |
| Auth.PasswordChecksOnlyWithNames | src/components/Auth.tsx:35-43 | a password message is only reported once both names are given |
| Auth.ErrorText | src/components/Auth.tsx:73 | a caught error shows its message, or the default text when the message is empty; never an empty text |
| Auth.Succeeded | src/components/Auth.tsx:18-77 | a submit succeeds when the sign-in succeeds, or, signing up, when the checks pass, the sign-up succeeds and the profile save succeeds whenever a user came back |
| Auth.AuthState.constructor | src/components/Auth.tsx:6-16 | login mode, password hidden, empty fields, no error, not loading |
| Auth.AuthState.EditForm | src/components/Auth.tsx:110-185 | the fields hold what was typed |
| Auth.AuthState.ToggleShowPassword | src/components/Auth.tsx:165 | the eye button shows or hides the passwords |
| Auth.AuthState.Submit | src/components/Auth.tsx:18-77 | loading ends false; login sends only the sign-in and skips the checks; a failed check sends nothing and shows its message; sign-up then saves the profile with trimmed names when a user comes back; the error is empty exactly when every step succeeded, else the failing call's message or the default |
| Auth.AuthState.ToggleMode | src/components/Auth.tsx:214-223 | the mode flips and the error and all five fields are cleared |
| UserSearch.Entry | src/components/UserSearch.tsx:103-123 | a listed result shows its display name, the email under it exactly when both names are shown, the count with "photo" singular exactly for one, at most four samples, and the route to the user's profile |
| UserSearch.ProfilePath | src/components/UserSearch.tsx:104 | a user's profile route is `/user/` followed by the id |
| UserSearch.Entries | src/components/UserSearch.tsx:100 | one entry per result, in order |
| UserSearch.Dropdown | src/components/UserSearch.tsx:89-148 | the dropdown shows exactly when wanted and the query has two characters or there are results; then a spinner while loading, else the results, else "No users found" |
| UserSearch.TypeMoreNeverShown | src/components/UserSearch.tsx:144-148 | the "type at least 2 characters" branch is never reached |
| UserSearch.ShortQueryHidesDropdown | src/components/UserSearch.tsx:34-36 | after a keystroke shorter than two characters the dropdown is hidden |
| UserSearch.SearchState.constructor | src/components/UserSearch.tsx:26-29 | an empty query, no results, not loading, the dropdown hidden |
| UserSearch.SearchState.HandleSearch | src/components/UserSearch.tsx:32-53 | the query is recorded; a call is made exactly for two characters or more, with the query as typed; a short query empties the results; a sent one ends loading with the returned rows, or none on error |
| UserSearch.SearchState.Clear | src/components/UserSearch.tsx:77-80 | the query and the results are emptied |
| UserSearch.SearchState.Focus | src/components/UserSearch.tsx:70 | focusing asks for the dropdown |
| UserSearch.SearchState.CloseResults | src/components/UserSearch.tsx:155 | the backdrop hides the dropdown |
| UserSearch.SearchState.SelectResult | src/components/UserSearch.tsx:103-107 | navigates to the result's profile, hides the dropdown and clears the query |
| SearchPage.SubmitDisabled | src/pages/SearchPage.tsx:63 | submit is disabled exactly while searching or when the query is all white space |
| SearchPage.AvatarLetter | src/pages/SearchPage.tsx:98 | the first name's first character, else the email's, upper-cased; none when both are empty |
| SearchPage.Card | src/pages/SearchPage.tsx:96-129 | a card shows the avatar letter, the display name, the email, the count with "photo" singular exactly for one, and at most four samples |
| SearchPage.Results | src/pages/SearchPage.tsx:72-90 | the introduction before any search; afterwards "No users found" exactly when there are no results, else their count with "user" singular exactly for one and one card per result in order |
| SearchPage.SearchPageState.constructor | src/pages/SearchPage.tsx:7-10 | an empty query, no results, no search made |
| SearchPage.SearchPageState.SetQuery | src/pages/SearchPage.tsx:57 | the query holds what was typed |
| SearchPage.SearchPageState.HandleSearch | src/pages/SearchPage.tsx:12-36 | a blank query sends nothing and changes nothing; otherwise the trimmed query is sent, a search is recorded, searching ends, and the results are the returned rows (none read as empty) or none on error |
| UserPublicProfile.LinkNames | src/components/UserPublicProfile.tsx:74-76 | the joined category names never include an empty name and are no more than the links |
| UserPublicProfile.LinkNamesMembers | src/components/UserPublicProfile.tsx:74-76 | a name is kept exactly when some link carries it |
| UserPublicProfile.LinkNamesAppend | src/components/UserPublicProfile.tsx:74-76 | the names keep the join order |
| UserPublicProfile.LinkName | src/components/UserPublicProfile.tsx:75 | a join link gives a name exactly when its category is present with a non-empty name, and then that name |
| UserPublicProfile.CategoryNames | src/components/UserPublicProfile.tsx:74-76 | an absent join gives no categories; otherwise no more names than links, none of them empty |
| UserPublicProfile.Transform | src/components/UserPublicProfile.tsx:72-77 | every photo is kept in order with only its categories replaced by its join's names, and an empty list when the join is absent |
| UserPublicProfile.OrNull | src/components/UserPublicProfile.tsx:51-52 | a name is kept exactly when non-empty, else stored as null |
| UserPublicProfile.DisplayName | src/components/UserPublicProfile.tsx:88-94 | "User" without a profile; "first last" with both names; otherwise the email, else "User"; never empty |
| UserPublicProfile.PublicProfileState.constructor | src/components/UserPublicProfile.tsx:16-19 | no profile, no photos, no error, loading |
| UserPublicProfile.PublicProfileState.FetchUserProfile | src/components/UserPublicProfile.tsx:27-86 | without an id nothing happens; a failed or empty email lookup sets "User not found" and fetches nothing more; otherwise the profile keeps the email and the non-empty names, the photos become the transformed rows, a photos failure sets "Failed to load user profile", and loading ends |
| UserProfile.OrEmpty | src/components/UserProfile.tsx:21-22 | a null or empty name becomes the empty field |
| UserProfile.Initials | src/components/UserProfile.tsx:40-49 | empty without a profile; both initials with both names; the first initial with only a first name; otherwise the email's first character; upper-cased; none exactly when the email it needs is empty |
| UserProfile.LastNameAloneIgnored | src/components/UserProfile.tsx:45-48 | a last name without a first name is never used: the email's initial is shown |
| UserProfile.FormOf | src/components/UserProfile.tsx:19-25 | the form mirrors the profile, null names as empty fields |
| UserProfile.HeaderName | src/components/UserProfile.tsx:148 | "first last" (last possibly empty) when there is a first name, else "Your Profile" |
| UserProfile.ProfileMenuState.constructor | src/components/UserProfile.tsx:7-13 | the dropdown closed, not editing, an empty form |
| UserProfile.ProfileMenuState.SyncFromProfile | src/components/UserProfile.tsx:18-26 | a profile refills the form; none leaves it |
| UserProfile.ProfileMenuState.ToggleDropdown | src/components/UserProfile.tsx:72 | the badge opens or closes the dropdown |
| UserProfile.ProfileMenuState.ClickOutside | src/components/UserProfile.tsx:29-33 | a click outside closes the dropdown and ends editing |
| UserProfile.ProfileMenuState.StartEditing | src/components/UserProfile.tsx:153 | the settings button enters edit mode |
| UserProfile.ProfileMenuState.EditFields | src/components/UserProfile.tsx:92-114 | the form holds what was typed |
| UserProfile.ProfileMenuState.Cancel | src/components/UserProfile.tsx:121-129 | edit mode ends and, with a profile, the form is restored from it |
| UserProfile.ProfileMenuState.UpdateProfile | src/components/UserProfile.tsx:51-59 | the form is sent as it is; success leaves edit mode, failure stays in it |

## Left out

- Backend calls (auth, table queries, storage upload, remove and public URL, RPCs) are foreign code. Each call's outcome is a parameter, and a handler returns the requests it would send.
- The hooks `src/hooks/useSupabaseAuth.ts`, `src/hooks/useSupabaseQuery.ts` and `src/hooks/useProfile.ts`, and the client set-up in `src/utils/supabase.ts`, are not part of this model. They are async lifecycle and remote calls with almost no local logic. The profile the hook supplies and the outcome of its update are parameters.
- View-only or pass-through files are not part of this model: `src/App.tsx`, `src/pages/HomePage.tsx`, `src/components/PhotoGallery.tsx`, `src/components/SearchResults.tsx` and `src/components/UserPhotoGallery.tsx`.
- Concurrency is not modelled. Every handler runs to completion without interleaving, so responses that arrive late or out of order, and a state update after unmount, are outside the model.
- The clock is a parameter: `Date.now()` in the add is each file's `timestamp`.
- Locale-dependent date handling is not modelled: `formatDateForInput`, the date input of the card editor, `toLocaleDateString`, and the ISO defaults of the add-photo modal.
- Browser side effects are not modelled: hover timers, the share menu and its `encodeURIComponent` URLs, `window.open`, the `alert` text itself (only whether it is raised), and the file input reset.
- Document listeners are not modelled. A click outside a menu and a key press are separate method calls, and a key is a `Key` value.
- The HSL tag colour `(index * 137.5) % 360` is floating point and is not modelled.
- Strings are sequences of characters. JavaScript's `.length` counts UTF-16 code units and `sort()` compares them, so a string outside the Basic Multilingual Plane can measure and order differently.
- Strings.UpperChar: upper-cases ASCII letters only, because Unicode case mapping (including one character mapping to several) is not modelled.
- PhotoGalleryModal.Render: an index outside the photo list renders as `current == None`. The source throws at this point instead, when it reads `image_url` of `undefined`. The model does not go further into that failed render.
- Auth.AuthState.Submit: the sign-up's `options.emailRedirectTo` (the browser's `window.location.origin`) and the profile upsert's `updated_at: new Date()` are not fields of the sent `SignUp` and `UpsertProfile` calls, because they come from the browser location and the clock.
- PhotoGallery.PublicUrl: the storage client's URL format (bucket URL, a slash, the name) is assumed, because it is foreign code.
- PhotoGallery.GalleryState.AddPhotos: an exception thrown by a backend call inside the loop is not modelled. It would abandon the remaining files and skip the reload. Only returned errors are.
- Exceptions thrown by the fetch handlers are not modelled separately. Where a handler treats a returned error and a thrown one the same way, both are `Err`.
- The HTML `required` attributes of the forms are not modelled: a submit with an empty required field never reaches the handler in the browser.
- The spread `...photo` in the public profile keeps the raw `photo_categories` join on each photo. The model keeps only the `Photo` fields.
- The public profile page never clears an earlier error when a later fetch succeeds. The model keeps that behaviour.
- Batch grouping, gallery-tile synthesis, reserved-prefix facet exclusion, tag replacement on update and visibility toggles are described for the application but are absent from this code. The tile only reads an already built `is_batch_tile` and `batch_photos`.
- Sign-out, the mobile menu's links and the routes are navigation only.
