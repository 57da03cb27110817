/**
 * The state controller of the album page: the eight pieces of state of the
 * `App` component and its event handlers. Each handler that talks to the
 * catalog service takes the outcome of every call it makes as a parameter
 * and returns the requests it issued, in order; a refresh that a handler
 * starts without awaiting it is treated as completing within the handler.
 */
module Controller {
  import opened Dates
  import opened Records
  import opened Remote

  /** The banner text after a failed add or update. */
  const SubmitError := "Error submitting form"
  /** The banner text after a failed delete. */
  const DeleteError := "Error deleting item"

  /**
   * The mode test `if (editItemId)`: JavaScript truthiness, so both `null`
   * and an empty id mean Create, and any other id means Edit.
   */
  predicate IsEditing(mode: Option<string>)
  {
    mode.Some? && mode.value != ""
  }

  /** The heading above the form and the dialog title. */
  function FormTitle(mode: Option<string>): (t: string)
    ensures t == "Edit Album" || t == "Add New Album"
    ensures t == "Edit Album" <==> IsEditing(mode)
  {
    if IsEditing(mode) then "Edit Album" else "Add New Album"
  }

  /** The label of the form's submit button. */
  function SubmitLabel(mode: Option<string>): (t: string)
    ensures t == "Update" <==> IsEditing(mode)
    ensures t == "Add" <==> !IsEditing(mode)
  {
    if IsEditing(mode) then "Update" else "Add"
  }

  /**
   * The call a submit makes: an update of the record being edited, or an
   * add; in both cases the body is the buffer as it stands.
   */
  function SubmitRequest(mode: Option<string>, buffer: Buffer): (r: Request)
    ensures r.Add? || r.Update?
    ensures r.Update? <==> IsEditing(mode)
    ensures r.Update? ==> mode.Some? && r.id == mode.value
    ensures r.body == buffer
  {
    if IsEditing(mode) then Update(mode.value, buffer) else Add(buffer)
  }

  /** What the dialog announces agrees with the call a submit makes. */
  lemma TitleMatchesSubmit(mode: Option<string>, buffer: Buffer)
    ensures FormTitle(mode) == "Edit Album" <==> SubmitRequest(mode, buffer).Update?
    ensures SubmitLabel(mode) == "Add" <==> SubmitRequest(mode, buffer).Add?
  {
  }

  /** The text shown in the search box: `searchQuery[searchField] || ''`. */
  function ShownSearchValue(query: map<Field, string>, field: Field): (v: string)
    ensures field in query ==> v == query[field]
    ensures field !in query ==> v == ""
  {
    if field in query then query[field] else ""
  }

  class App {
    /** The albums in the table. */
    var items: seq<Album>
    /** The edit buffer behind the form. */
    var formData: Buffer
    /** The search parameters, keyed by field. */
    var searchQuery: map<Field, string>
    /** The field the search box filters on. */
    var searchField: Field
    /** Null (`None`) in Create mode, the id of the album being edited in Edit mode. */
    var editItemId: Option<string>
    /** Whether the form dialog is open. */
    var showModal: bool
    /** Whether the "No albums match your search criteria." notice shows. */
    var noResults: bool
    /** The error banner; empty means no banner. */
    var errorMessage: string

    /** At most one field carries a search value, and it is the selected one. */
    predicate SingleFilter()
      reads this
    {
      searchQuery.Keys <= {searchField}
    }

    /** The banner only ever holds one of the controller's two messages. */
    predicate KnownError()
      reads this
    {
      errorMessage == "" || errorMessage == SubmitError || errorMessage == DeleteError
    }

    /** The initial state of the component, before the mount-time fetch. */
    constructor ()
      ensures items == [] && formData == EmptyBuffer() && searchQuery == map[]
      ensures searchField == Title && editItemId == None
      ensures !showModal && !noResults && errorMessage == ""
      ensures SingleFilter() && KnownError()
    {
      items := [];
      formData := EmptyBuffer();
      searchQuery := map[];
      searchField := Title;
      editItemId := None;
      showModal := false;
      noResults := false;
      errorMessage := "";
    }

    /**
     * `fetchItems`, also run once when the page mounts and by the
     * "Show All Albums" button. A successful listing replaces the table and
     * hides the notice even when it is empty; a failed one shows the notice
     * and keeps the table.
     */
    method FetchItems(response: Outcome<seq<Album>>) returns (sent: Request)
      modifies this`items, this`noResults
      ensures sent == GetAll
      ensures response.Success? ==> items == response.data && !noResults
      ensures response.Failure? ==> items == old(items) && noResults
    {
      sent := GetAll;
      match response
      case Success(data) =>
        items := data;
        noResults := false;
      case Failure =>
        noResults := true;
    }

    /**
     * `searchItems`: sends the search parameters as they stand. A successful
     * search replaces the table and shows the notice exactly when nothing
     * matched; a failed one shows the notice and keeps the table.
     */
    method SearchItems(response: Outcome<seq<Album>>) returns (sent: Request)
      modifies this`items, this`noResults
      ensures sent == Search(searchQuery)
      ensures response.Success? ==> items == response.data && (noResults <==> |response.data| == 0)
      ensures response.Failure? ==> items == old(items) && noResults
    {
      sent := Search(searchQuery);
      match response
      case Success(data) =>
        items := data;
        noResults := |data| == 0;
      case Failure =>
        noResults := true;
    }

    /**
     * `submitForm`: updates the album being edited, or adds a new one. On
     * success it leaves Edit mode (Create mode stays as it was), refreshes
     * with a full listing (not the current search), empties the buffer and
     * closes the dialog. On failure only the banner changes.
     */
    method SubmitForm(response: Outcome<()>, refresh: Outcome<seq<Album>>) returns (sent: seq<Request>)
      requires KnownError()
      modifies this`items, this`noResults, this`formData, this`showModal, this`editItemId, this`errorMessage
      ensures KnownError()
      ensures |sent| >= 1 && sent[0] == SubmitRequest(old(editItemId), old(formData))
      ensures response.Success? ==>
        && sent == [SubmitRequest(old(editItemId), old(formData)), GetAll]
        && editItemId == (if IsEditing(old(editItemId)) then None else old(editItemId))
        && !IsEditing(editItemId)
        && formData == EmptyBuffer() && !showModal
        && (refresh.Success? ==> items == refresh.data && !noResults)
        && (refresh.Failure? ==> items == old(items) && noResults)
        && errorMessage == old(errorMessage)
      ensures response.Failure? ==>
        && sent == [SubmitRequest(old(editItemId), old(formData))]
        && errorMessage == SubmitError
        && formData == old(formData) && editItemId == old(editItemId) && showModal == old(showModal)
        && items == old(items) && noResults == old(noResults)
    {
      var request := SubmitRequest(editItemId, formData);
      if response.Success? {
        if IsEditing(editItemId) {
          editItemId := None;
        }
        var listing := FetchItems(refresh);
        ResetForm();
        sent := [request, listing];
      } else {
        errorMessage := SubmitError;
        sent := [request];
      }
    }

    /**
     * `resetForm`, also the dialog's close handler: empties the buffer and
     * closes the dialog. The mode is left as it is, so cancelling an edit
     * stays in Edit mode.
     */
    method ResetForm()
      modifies this`formData, this`showModal
      ensures formData == EmptyBuffer() && !showModal
    {
      formData := EmptyBuffer();
      showModal := false;
    }

    /** `handleChange`: a form input changed. */
    method HandleChange(name: Field, value: string)
      modifies this`formData
      ensures BufferField(formData, name) == value
      ensures forall f :: f != name ==> BufferField(formData, f) == BufferField(old(formData), f)
    {
      formData := WithField(formData, name, value);
    }

    /**
     * `handleSearchChange`: the search box changed. The box is named after
     * the selected field, so `name` is `searchField` whenever the page calls
     * this, and then at most one field keeps carrying a value.
     */
    method HandleSearchChange(name: Field, value: string)
      modifies this`searchQuery
      ensures searchQuery.Keys == old(searchQuery).Keys + {name}
      ensures searchQuery[name] == value
      ensures forall f :: f in old(searchQuery) && f != name ==> searchQuery[f] == old(searchQuery)[f]
      ensures name == searchField ==> ShownSearchValue(searchQuery, searchField) == value
      ensures name == searchField && old(SingleFilter()) ==> SingleFilter()
    {
      searchQuery := searchQuery[name := value];
    }

    /**
     * The search-field selector changed: the new field is selected and the
     * search parameters are emptied, so the box shows nothing.
     */
    method SelectSearchField(field: Field)
      modifies this`searchField, this`searchQuery
      ensures searchField == field && searchQuery == map[]
      ensures forall f :: ShownSearchValue(searchQuery, f) == ""
      ensures SingleFilter()
    {
      searchField := field;
      searchQuery := map[];
    }

    /**
     * `deleteItem`: deletes by id. On success the table is refreshed with a
     * full listing; on failure only the banner changes.
     */
    method DeleteItem(id: string, response: Outcome<()>, refresh: Outcome<seq<Album>>) returns (sent: seq<Request>)
      requires KnownError()
      modifies this`items, this`noResults, this`errorMessage
      ensures KnownError()
      ensures response.Success? ==>
        && sent == [Delete(id), GetAll]
        && (refresh.Success? ==> items == refresh.data && !noResults)
        && (refresh.Failure? ==> items == old(items) && noResults)
        && errorMessage == old(errorMessage)
      ensures response.Failure? ==>
        && sent == [Delete(id)]
        && errorMessage == DeleteError
        && items == old(items) && noResults == old(noResults)
    {
      if response.Success? {
        var listing := FetchItems(refresh);
        sent := [Delete(id), listing];
      } else {
        errorMessage := DeleteError;
        sent := [Delete(id)];
      }
    }

    /**
     * `editItem`: enters Edit mode for an album, fills the buffer from it
     * (the release date cut to its date part) and opens the dialog.
     */
    method EditItem(item: Album)
      modifies this`editItemId, this`formData, this`showModal
      ensures editItemId == Some(item.id)
      ensures forall f :: f != ReleaseDate ==> BufferField(formData, f) == AlbumField(item, f)
      ensures BufferField(formData, ReleaseDate) == TruncateDate(item.releaseDate)
      ensures showModal
    {
      editItemId := Some(item.id);
      formData := FromAlbum(item);
      showModal := true;
    }

    /**
     * The "Add Album" button: opens the dialog and nothing else; the buffer
     * and the mode are left as they are.
     */
    method ShowAddForm()
      modifies this`showModal
      ensures showModal
    {
      showModal := true;
    }

    /** The "Hide All Albums" button: empties the table, with no call to the service. */
    method HideAll()
      modifies this`items
      ensures items == []
    {
      items := [];
    }
  }
}
