# Album catalog page: state controller

This project models the state controller of a single-page album catalog
(`src/App.js`, the `App` component). The page lists music albums held by a
remote catalog service. It filters them by one field and adds, edits and
deletes them through one dialog form. The controller is a state machine over
eight pieces of component state:

- `items`, the album table;
- `formData`, the one seven-field edit buffer;
- `searchQuery`, the search parameters keyed by field;
- `searchField`, the field the search box filters on;
- `editItemId`, the mode: null is Create, an id is Edit;
- `showModal`, whether the dialog is open;
- `noResults`, the "no albums match" notice;
- `errorMessage`, the error banner.

Every event handler becomes one method of the class `Controller.App`. Each
method changes only the fields its `modifies` clause names. A call to the
service becomes an `Outcome` parameter: `Success(data)` or `Failure`. A
method that calls the service returns the `Request`s it issued, in order, so
its contract can say which call was made, with which id and body, and that a
refresh followed.

Modules:

- `Dates` (`dates.dfy`): `split` on one separator character, `join`, and the
  release-date truncation `split('T')[0]`.
- `Records` (`records.dfy`): the `Album` record, the `Buffer`, the `Field`
  names, the spread update of one buffer field, and filling the buffer from
  an album.
- `Remote` (`remote.dfy`): call outcomes and the five requests.
- `Controller` (`controller.dfy`): the `App` class and the mode-derived
  title, label and submit call.
- `Scenarios` (`scenarios.dfy`): user sessions on a freshly mounted page,
  driven through the handlers.

The model follows the code as written, including where it departs from what
such a page is usually meant to do:

- A successful submit is followed by a full listing, not by the current
  search.
- Closing the dialog (`resetForm`) does not leave Edit mode. After an edit is
  cancelled, "Add Album" still shows "Edit Album", and submitting overwrites
  the album that was being edited. `Scenarios.CancelEditThenAdd` proves this.
- The error banner is set on a failed submit or a failed delete and is never
  cleared.
- A failed listing shows the "no results" notice, not the banner, and keeps
  the table. A failed search does the same.
- `noResults` is not reset when a search starts.
- Nothing in the controller checks that required fields are non-empty. Only
  the browser's `required` attribute does that.
- The mode test is JavaScript truthiness (`if (editItemId)`). An empty id
  therefore counts as Create; see `Controller.IsEditing`.

## Model

| member | source | states |
|---|---|---|
| `Dates.Split` | src/App.js:121 | `split` on one character gives at least one piece, and no piece contains the separator |
| `Dates.JoinSplit` | src/App.js:121 | joining the pieces of a split with the separator gives the original string back |
| `Dates.SplitJoin` | src/App.js:121 | splitting a join of separator-free pieces (at least one) gives those pieces back |
| `Dates.SplitCount` | src/App.js:121 | a split has exactly one more piece than the string has separators |
| `Dates.SplitHead` | src/App.js:121 | the first piece is a prefix of the string, and if it is shorter, the separator comes right after it |
| `Dates.TruncateDate` | src/App.js:121 | `releaseDate.split('T')[0]` is a prefix of the input with no 'T', ending at the input's end or at the first 'T' |
| `Dates.TruncateDateUnique` | src/App.js:295 | any prefix with those three properties is the truncation, so they define it |
| `Dates.TruncateDateWhole` | src/App.js:295 | a string without 'T' is returned whole |
| `Dates.TruncateDateIdempotent` | src/App.js:295 | truncating twice gives the same result as truncating once |
| `Records.BufferExtensionality` | src/App.js:10-18 | the buffer is exactly its seven fields: two buffers that agree on every field are equal |
| `Records.EmptyBuffer` | src/App.js:73-81 | the initial and reset buffer has every field blank |
| `Records.WithField` | src/App.js:88-91 | `{...prevData, [name]: value}` sets the named field and keeps every other field |
| `Records.WithFieldOverwrite` | src/App.js:88-91 | two edits of the same field keep only the second value |
| `Records.WithFieldSame` | src/App.js:88-91 | writing back a field's current value leaves the buffer unchanged |
| `Records.WithFieldCommute` | src/App.js:88-91 | edits of two different fields give the same buffer in either order |
| `Records.FromAlbum` | src/App.js:117-125 | the edit buffer copies every album field, except that the release date is cut to its part before 'T' |
| `Records.FromAlbumBareDate` | src/App.js:117-125 | for an album whose date has no 'T', the buffer equals the album on every field |
| `Records.ReleaseDateColumn` | src/App.js:290-298 | the table's Release Date column has one cell per album: that album's release date, truncated |
| `Controller.FormTitle` | src/App.js:188 | the heading is "Edit Album" exactly when the mode is a truthy id, and "Add New Album" otherwise |
| `Controller.SubmitLabel` | src/App.js:264 | the submit button reads "Update" exactly in Edit mode, and "Add" exactly in Create mode |
| `Controller.SubmitRequest` | src/App.js:57-62 | submit sends an update carrying the mode's id exactly when the mode is a truthy id, and an add otherwise; the body is the buffer |
| `Controller.TitleMatchesSubmit` | src/App.js:192 | the dialog title says Edit exactly when submit will update, and the button says Add exactly when submit will add |
| `Controller.ShownSearchValue` | src/App.js:166 | the search box shows the selected field's value, or "" when that field has none |
| `Controller.App.constructor` | src/App.js:9-24 | initial state: empty table, blank buffer, empty query, field Title, Create mode, dialog closed, no notice, no banner |
| `Controller.App.FetchItems` | src/App.js:28-37 | sends GetAll; success sets the table to the response exactly and hides the notice, even for an empty list; failure shows the notice and keeps the table; nothing else changes |
| `Controller.App.SearchItems` | src/App.js:40-51 | sends the current query; success sets the table to the response, with the notice shown exactly when it is empty; failure shows the notice and keeps the table |
| `Controller.App.SubmitForm` | src/App.js:54-69 | sends update-or-add per the mode; success sends GetAll, leaves Edit mode, blanks the buffer and closes the dialog; failure changes only the banner, to "Error submitting form" |
| `Controller.App.ResetForm` | src/App.js:72-83 | blanks the buffer and closes the dialog; the mode and everything else stay |
| `Controller.App.HandleChange` | src/App.js:86-92 | the named buffer field gets the new value; every other field is unchanged |
| `Controller.App.HandleSearchChange` | src/App.js:95-101 | the named query key gets the value and other keys keep theirs; typing into the selected field keeps at most one filter |
| `Controller.App.SelectSearchField` | src/App.js:147-150 | selects the field and empties the query, so the box shows "" for every field and at most one filter remains |
| `Controller.App.DeleteItem` | src/App.js:104-112 | sends Delete(id); success sends GetAll and applies it like FetchItems; failure changes only the banner, to "Error deleting item" |
| `Controller.App.EditItem` | src/App.js:115-127 | sets Edit mode with the album's id, fills the buffer from the album with the date truncated, and opens the dialog |
| `Controller.App.ShowAddForm` | src/App.js:189 | "Add Album" opens the dialog and changes nothing else, not even the mode or the buffer |
| `Controller.App.HideAll` | src/App.js:175 | "Hide All Albums" empties the table and changes nothing else |
| `Scenarios.ListOneAlbum` | src/App.js:28-37 | listing the Thriller record gives one row, showing date "1982-11-30", and no notice |
| `Scenarios.SearchFindsNothing` | src/App.js:40-51 | after selecting a field and typing a value, the search sends exactly that one pair; an empty answer empties the table and shows the notice |
| `Scenarios.SwitchFieldDropsValue` | src/App.js:147-150 | after switching to a different field, the box is blank and the next search sends only the new field's value |
| `Scenarios.EditRatingAndSubmit` | src/App.js:115-127 | edit, change the rating, submit: sends Update(id, edited buffer) then GetAll; ends in Create mode with the form closed and blank |
| `Scenarios.AddAlbum` | src/App.js:60-64 | Add Album, type, submit: sends Add(buffer) then GetAll and stays in Create mode |
| `Scenarios.CancelEditThenAdd` | src/App.js:72-83 | after cancelling an edit, the Add dialog is titled "Edit Album", and submitting sends Update with the old id |
| `Scenarios.FailedSubmitThenRetry` | src/App.js:65-67 | a failed submit keeps the dialog open, the input and Edit mode, and sets the banner; a later successful submit leaves the banner set |
| `Scenarios.DeleteAlbum` | src/App.js:104-112 | a delete sends the id, then GetAll; if the service no longer lists the album, the table lacks it; a failed delete keeps the table and sets the banner |
| `Scenarios.FailedListing` | src/App.js:33-36 | a failed listing keeps the table, shows the notice and leaves the banner empty |

## Left out

- Rendering: JSX, Bootstrap layout, icons and CSS. The only parts modelled
  are the values the page derives from state: headings, the button label,
  the search box value and the Release Date column.
- Transport: the axios calls, the base address, URL building and the
  `console.error` logging. Each call is its `Request` plus an `Outcome`
  passed in by the caller. The bodies of add, update and delete responses are
  ignored, as in the code.
- Asynchrony: the refreshes after submit and delete are not awaited, and
  nothing prevents a second submit while one is in flight. The model runs
  each handler to completion, with its refresh applied at once. Interleaved
  responses and duplicate submissions are not modelled.
- The mount-time effect is not a member of its own. It is the first call to
  `FetchItems` on a new `App`; every scenario starts with that call.
- Browser input validation (`required`, `type="number"`, `type="date"`)
  and the 0-10 rating range. Nothing in the controller checks these, and all
  buffer fields are plain strings.
- Numbers on the wire: `duration` and `rating` are kept as the text the form
  shows, and no JSON number formatting is modelled.
- Missing record fields: an album without `countryOfOrigin` would put
  `undefined` into the buffer, and one without `releaseDate` would make the
  truncation throw. Every `Album` here has all eight fields as strings.
- Input names outside the seven fields: `handleChange` would add that key
  to the buffer. Every form input is named after one of the seven fields, so
  the model takes a `Field`.
- Controller.App.HandleSearchChange: preserves the single-filter property
  only when the input's name is the selected field. The page's only search
  input is named that way, but the handler itself does not check it.
- Scenarios.DeleteAlbum: "the table no longer holds the deleted album"
  depends on the service omitting it from the next listing. It is stated
  under that condition on the refreshed list, not proved of the controller.
