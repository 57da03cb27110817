/**
 * The values the album controller handles: an album record as the catalog
 * service returns it, the seven-field edit buffer behind the form, and the
 * field names shared by the form inputs and the search-field selector.
 *
 * Every field is kept as the text the form shows: the service's numeric
 * `duration` and `rating` are copied into the buffer unchanged, and the form
 * inputs hand back strings, so no numeric parsing takes place in the
 * controller.
 */
module Records {
  import opened Dates

  datatype Option<T> = None | Some(value: T)

  /**
   * The seven album fields, which are both the `name`s of the form inputs
   * and the values of the search-field options ("title", "artist", "genre",
   * "releaseDate", "duration", "countryOfOrigin", "rating").
   */
  datatype Field = Title | Artist | Genre | ReleaseDate | Duration | CountryOfOrigin | Rating

  /** An album as the service returns it; `id` is the server-assigned `_id`. */
  datatype Album = Album(
    id: string,
    title: string,
    artist: string,
    genre: string,
    releaseDate: string,
    duration: string,
    countryOfOrigin: string,
    rating: string)

  /** The edit buffer `formData`: an album without its id. */
  datatype Buffer = Buffer(
    title: string,
    artist: string,
    genre: string,
    releaseDate: string,
    duration: string,
    countryOfOrigin: string,
    rating: string)

  /** Looks a field of an album up by name (`item[name]`). */
  function AlbumField(a: Album, f: Field): string
  {
    match f
    case Title => a.title
    case Artist => a.artist
    case Genre => a.genre
    case ReleaseDate => a.releaseDate
    case Duration => a.duration
    case CountryOfOrigin => a.countryOfOrigin
    case Rating => a.rating
  }

  /** Looks a field of the buffer up by name (`formData[name]`). */
  function BufferField(b: Buffer, f: Field): string
  {
    match f
    case Title => b.title
    case Artist => b.artist
    case Genre => b.genre
    case ReleaseDate => b.releaseDate
    case Duration => b.duration
    case CountryOfOrigin => b.countryOfOrigin
    case Rating => b.rating
  }

  /** Two buffers that agree on every field are the same buffer. */
  lemma BufferExtensionality(b: Buffer, c: Buffer)
    requires forall f :: BufferField(b, f) == BufferField(c, f)
    ensures b == c
  {
    assert BufferField(b, Title) == BufferField(c, Title);
    assert BufferField(b, Artist) == BufferField(c, Artist);
    assert BufferField(b, Genre) == BufferField(c, Genre);
    assert BufferField(b, ReleaseDate) == BufferField(c, ReleaseDate);
    assert BufferField(b, Duration) == BufferField(c, Duration);
    assert BufferField(b, CountryOfOrigin) == BufferField(c, CountryOfOrigin);
    assert BufferField(b, Rating) == BufferField(c, Rating);
  }

  /** The buffer the form starts with and is reset to: every field blank. */
  function EmptyBuffer(): (b: Buffer)
    ensures forall f :: BufferField(b, f) == ""
  {
    Buffer("", "", "", "", "", "", "")
  }

  /**
   * `{ ...prevData, [name]: value }`: the buffer with one field replaced
   * and every other field kept.
   */
  function WithField(b: Buffer, name: Field, value: string): (r: Buffer)
    ensures BufferField(r, name) == value
    ensures forall f :: f != name ==> BufferField(r, f) == BufferField(b, f)
  {
    match name
    case Title => b.(title := value)
    case Artist => b.(artist := value)
    case Genre => b.(genre := value)
    case ReleaseDate => b.(releaseDate := value)
    case Duration => b.(duration := value)
    case CountryOfOrigin => b.(countryOfOrigin := value)
    case Rating => b.(rating := value)
  }

  /** Writing a field twice keeps only the second value. */
  lemma WithFieldOverwrite(b: Buffer, name: Field, v: string, w: string)
    ensures WithField(WithField(b, name, v), name, w) == WithField(b, name, w)
  {
    var lhs := WithField(WithField(b, name, v), name, w);
    var rhs := WithField(b, name, w);
    forall f ensures BufferField(lhs, f) == BufferField(rhs, f) {
    }
    BufferExtensionality(lhs, rhs);
  }

  /** Writing back the value a field already holds leaves the buffer as it is. */
  lemma WithFieldSame(b: Buffer, name: Field)
    ensures WithField(b, name, BufferField(b, name)) == b
  {
    var r := WithField(b, name, BufferField(b, name));
    forall f ensures BufferField(r, f) == BufferField(b, f) {
    }
    BufferExtensionality(r, b);
  }

  /** Edits of two different fields do not interfere, in either order. */
  lemma WithFieldCommute(b: Buffer, f: Field, v: string, g: Field, w: string)
    requires f != g
    ensures WithField(WithField(b, f, v), g, w) == WithField(WithField(b, g, w), f, v)
  {
    var lhs := WithField(WithField(b, f, v), g, w);
    var rhs := WithField(WithField(b, g, w), f, v);
    forall h ensures BufferField(lhs, h) == BufferField(rhs, h) {
    }
    BufferExtensionality(lhs, rhs);
  }

  /**
   * The buffer `editItem` fills from an album: every field copied, except
   * that the release date becomes its date part before the first 'T'.
   */
  function FromAlbum(a: Album): (r: Buffer)
    ensures forall f :: f != ReleaseDate ==> BufferField(r, f) == AlbumField(a, f)
    ensures BufferField(r, ReleaseDate) == TruncateDate(a.releaseDate)
    ensures 'T' !in r.releaseDate && r.releaseDate <= a.releaseDate
  {
    Buffer(a.title, a.artist, a.genre, TruncateDate(a.releaseDate),
           a.duration, a.countryOfOrigin, a.rating)
  }

  /** Filling the form from an album whose date is already bare copies the album exactly. */
  lemma FromAlbumBareDate(a: Album)
    requires 'T' !in a.releaseDate
    ensures forall f :: BufferField(FromAlbum(a), f) == AlbumField(a, f)
  {
    TruncateDateWhole(a.releaseDate);
  }

  /**
   * The Release Date column of the album table: each row's release date
   * cut to its date part (`item.releaseDate.split('T')[0]`).
   */
  function ReleaseDateColumn(rows: seq<Album>): (col: seq<string>)
    ensures |col| == |rows|
    ensures forall i :: 0 <= i < |rows| ==> col[i] == TruncateDate(rows[i].releaseDate)
  {
    if rows == [] then []
    else [TruncateDate(rows[0].releaseDate)] + ReleaseDateColumn(rows[1..])
  }
}
