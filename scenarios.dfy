/**
 * Sessions on a freshly mounted page, driven through the controller's
 * handlers in the order a user would trigger them. Each returns what the
 * page then shows or sends, and its postcondition says what that is.
 */
module Scenarios {
  import opened Dates
  import opened Records
  import opened Remote
  import opened Controller

  const Thriller := Album("1", "Thriller", "Michael Jackson", "Pop",
                          "1982-11-30T00:00:00Z", "42", "US", "10")

  /** A full listing with one album: one row, its date shown bare, no notice. */
  method ListOneAlbum() returns (rows: nat, shownDate: string, notice: bool)
    ensures rows == 1 && shownDate == "1982-11-30" && !notice
  {
    var app := new App();
    var _ := app.FetchItems(Success([Thriller]));
    rows := |app.items|;
    TruncateDateUnique(Thriller.releaseDate, "1982-11-30");
    shownDate := ReleaseDateColumn(app.items)[0];
    notice := app.noResults;
  }

  /**
   * Choosing a field, typing a value and searching sends exactly that one
   * filter; an empty answer empties the table and shows the notice.
   */
  method SearchFindsNothing(field: Field, value: string, shown: seq<Album>)
    returns (sent: Request, rows: seq<Album>, notice: bool)
    ensures sent == Search(map[field := value])
    ensures rows == [] && notice
  {
    var app := new App();
    var _ := app.FetchItems(Success(shown));
    app.SelectSearchField(field);
    app.HandleSearchChange(field, value);
    sent := app.SearchItems(Success([]));
    rows := app.items;
    notice := app.noResults;
  }

  /**
   * Typing into the box for one field and then switching to another drops the
   * old value: the next search sends the new field only.
   */
  method SwitchFieldDropsValue(f1: Field, v: string, f2: Field, w: string)
    returns (cleared: string, sent: Request)
    requires f1 != f2
    ensures cleared == ""
    ensures sent == Search(map[f2 := w])
  {
    var app := new App();
    var _ := app.FetchItems(Success([]));
    app.SelectSearchField(f1);
    app.HandleSearchChange(f1, v);
    app.SelectSearchField(f2);
    cleared := ShownSearchValue(app.searchQuery, app.searchField);
    app.HandleSearchChange(f2, w);
    sent := app.SearchItems(Failure);
  }

  /**
   * Editing an album, changing its rating and submitting updates that
   * album with the edited buffer, then lists everything again and returns
   * to Create mode with an empty, closed form.
   */
  method EditRatingAndSubmit(item: Album, rating: string, refreshed: seq<Album>)
    returns (sent: seq<Request>, title: string, rows: seq<Album>, open: bool, buffer: Buffer)
    requires item.id != ""
    ensures sent == [Update(item.id, WithField(FromAlbum(item), Rating, rating)), GetAll]
    ensures title == "Add New Album" && rows == refreshed && !open && buffer == EmptyBuffer()
  {
    var app := new App();
    var _ := app.FetchItems(Success([item]));
    app.EditItem(item);
    assert app.formData == FromAlbum(item) by {
      BufferExtensionality(app.formData, FromAlbum(item));
    }
    app.HandleChange(Rating, rating);
    assert app.formData == WithField(FromAlbum(item), Rating, rating) by {
      BufferExtensionality(app.formData, WithField(FromAlbum(item), Rating, rating));
    }
    sent := app.SubmitForm(Success(()), Success(refreshed));
    title := FormTitle(app.editItemId);
    rows := app.items;
    open := app.showModal;
    buffer := app.formData;
  }

  /** Adding from a fresh page posts the typed buffer and stays in Create mode. */
  method AddAlbum(title: string, refreshed: seq<Album>)
    returns (sent: seq<Request>, mode: Option<string>, rows: seq<Album>)
    ensures sent == [Add(WithField(EmptyBuffer(), Title, title)), GetAll]
    ensures mode == None && rows == refreshed
  {
    var app := new App();
    var _ := app.FetchItems(Success([]));
    app.ShowAddForm();
    app.HandleChange(Title, title);
    assert app.formData == WithField(EmptyBuffer(), Title, title) by {
      BufferExtensionality(app.formData, WithField(EmptyBuffer(), Title, title));
    }
    sent := app.SubmitForm(Success(()), Success(refreshed));
    mode := app.editItemId;
    rows := app.items;
  }

  /**
   * Closing the dialog of an edit does not leave Edit mode: "Add Album"
   * then still shows "Edit Album", and submitting the new entry overwrites
   * the album that was being edited instead of adding one.
   */
  method CancelEditThenAdd(item: Album, title: string)
    returns (heading: string, sent: seq<Request>)
    requires item.id != ""
    ensures heading == "Edit Album"
    ensures sent == [Update(item.id, WithField(EmptyBuffer(), Title, title)), GetAll]
  {
    var app := new App();
    var _ := app.FetchItems(Success([]));
    app.EditItem(item);
    app.ResetForm();
    app.ShowAddForm();
    heading := FormTitle(app.editItemId);
    app.HandleChange(Title, title);
    assert app.formData == WithField(EmptyBuffer(), Title, title) by {
      BufferExtensionality(app.formData, WithField(EmptyBuffer(), Title, title));
    }
    sent := app.SubmitForm(Success(()), Success([]));
  }

  /**
   * A failed submit keeps the dialog open with the input and the mode
   * intact and shows the banner; a later successful submit does not clear
   * the banner.
   */
  method FailedSubmitThenRetry(item: Album, rating: string)
    returns (openAfterFailure: bool, keptBuffer: bool, stillEditing: bool,
             bannerAfterFailure: string, bannerAfterRetry: string, retried: seq<Request>)
    requires item.id != ""
    ensures openAfterFailure && keptBuffer && stillEditing
    ensures bannerAfterFailure == SubmitError && bannerAfterRetry == SubmitError
    ensures retried == [Update(item.id, WithField(FromAlbum(item), Rating, rating)), GetAll]
  {
    var app := new App();
    var _ := app.FetchItems(Success([]));
    app.EditItem(item);
    app.HandleChange(Rating, rating);
    assert app.formData == WithField(FromAlbum(item), Rating, rating) by {
      BufferExtensionality(app.formData, WithField(FromAlbum(item), Rating, rating));
    }
    var before := app.formData;
    var _ := app.SubmitForm(Failure, Failure);
    openAfterFailure := app.showModal;
    keptBuffer := app.formData == before;
    stillEditing := IsEditing(app.editItemId);
    bannerAfterFailure := app.errorMessage;
    retried := app.SubmitForm(Success(()), Success([]));
    bannerAfterRetry := app.errorMessage;
  }

  /**
   * Deleting an album sends its id and then lists everything again; when
   * the service no longer lists the album, the table no longer holds it.
   * A failed delete keeps the table and shows the banner.
   */
  method DeleteAlbum(item: Album, refreshed: seq<Album>, fails: bool)
    returns (sent: seq<Request>, rows: seq<Album>, banner: string)
    ensures !fails ==> sent == [Delete(item.id), GetAll] && rows == refreshed && banner == ""
    ensures !fails && (forall a :: a in refreshed ==> a.id != item.id) ==>
      forall a :: a in rows ==> a.id != item.id
    ensures fails ==> sent == [Delete(item.id)] && rows == [item] && banner == DeleteError
  {
    var app := new App();
    var _ := app.FetchItems(Success([item]));
    sent := app.DeleteItem(item.id, if fails then Failure else Success(()), Success(refreshed));
    rows := app.items;
    banner := app.errorMessage;
  }

  /** A failed listing keeps the table and shows the notice, not the banner. */
  method FailedListing(shown: seq<Album>) returns (rows: seq<Album>, notice: bool, banner: string)
    ensures rows == shown && notice && banner == ""
  {
    var app := new App();
    var _ := app.FetchItems(Success(shown));
    var _ := app.FetchItems(Failure);
    rows := app.items;
    notice := app.noResults;
    banner := app.errorMessage;
  }
}
