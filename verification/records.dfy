/** The two shapes a play takes: the nested play event the recently-played
    endpoint returns, and the flat row appended to the
    `most_recently_played_songs` table. */
module Records {
  import opened Wrappers
  import opened Timestamps

  datatype Image = Image(url: string)

  datatype Artist = Artist(id: string, name: string)

  datatype Album = Album(name: string, albumType: string, releaseDate: string, images: seq<Image>)

  datatype Track = Track(
    id: string,
    name: string,
    durationMs: nat,
    popularity: int,
    album: Album,
    artists: seq<Artist>)

  /** One item of the endpoint's `items` list. `contextType` is `None` when the
      item's `context` object is null. */
  datatype PlayEvent = PlayEvent(track: Track, playedAt: DateTime, contextType: Option<string>)

  /** One row of the destination table; `None` is a SQL NULL. */
  datatype Row = Row(
    playId: string,
    trackId: string,
    trackName: string,
    trackLengthSeconds: real,
    trackPopularity: int,
    playedAt: string,
    contextType: Option<string>,
    album: string,
    albumCover: Option<string>,
    albumType: string,
    albumReleaseDate: Option<DateTime>,
    artists: string,
    artistId: string,
    artistImage: Option<string>)

  /** The destination table's columns. */
  datatype Column =
    | PlayIdCol | TrackIdCol | TrackNameCol | TrackLengthSecondsCol | TrackPopularityCol
    | PlayedAtCol | ContextTypeCol | AlbumCol | AlbumCoverCol | AlbumTypeCol
    | AlbumReleaseDateCol | ArtistsCol | ArtistIdCol | ArtistImageCol

  /** The column's name in the table. */
  function Name(c: Column): string {
    match c
    case PlayIdCol => "play_id"
    case TrackIdCol => "track_id"
    case TrackNameCol => "track_name"
    case TrackLengthSecondsCol => "track_length_seconds"
    case TrackPopularityCol => "track_popularity"
    case PlayedAtCol => "played_at"
    case ContextTypeCol => "context_type"
    case AlbumCol => "album"
    case AlbumCoverCol => "album_cover"
    case AlbumTypeCol => "album_type"
    case AlbumReleaseDateCol => "album_release_date"
    case ArtistsCol => "artists"
    case ArtistIdCol => "artist_id"
    case ArtistImageCol => "artist_image"
  }

  const AllColumns: set<Column> := {
    PlayIdCol, TrackIdCol, TrackNameCol, TrackLengthSecondsCol, TrackPopularityCol,
    PlayedAtCol, ContextTypeCol, AlbumCol, AlbumCoverCol, AlbumTypeCol,
    AlbumReleaseDateCol, ArtistsCol, ArtistIdCol, ArtistImageCol}

  /** The fourteen column names of the table. */
  const ColumnNames: set<string> := {
    "play_id", "track_id", "track_name", "track_length_seconds", "track_popularity",
    "played_at", "context_type", "album", "album_cover", "album_type",
    "album_release_date", "artists", "artist_id", "artist_image"}

  /** `AllColumns` is every column, and their names are exactly the table's
      fourteen column names. */
  lemma ColumnNamesExact()
    ensures forall c: Column :: c in AllColumns
    ensures (set c | c in AllColumns :: Name(c)) == ColumnNames
  {
    forall c: Column
      ensures c in AllColumns
    {
      match c
      case PlayIdCol => case TrackIdCol => case TrackNameCol => case TrackLengthSecondsCol =>
      case TrackPopularityCol => case PlayedAtCol => case ContextTypeCol => case AlbumCol =>
      case AlbumCoverCol => case AlbumTypeCol => case AlbumReleaseDateCol => case ArtistsCol =>
      case ArtistIdCol => case ArtistImageCol =>
    }
  }

  /** The column a table column name denotes. */
  function ColumnNamed(name: string): Option<Column> {
    if name == "play_id" then Some(PlayIdCol)
    else if name == "track_id" then Some(TrackIdCol)
    else if name == "track_name" then Some(TrackNameCol)
    else if name == "track_length_seconds" then Some(TrackLengthSecondsCol)
    else if name == "track_popularity" then Some(TrackPopularityCol)
    else if name == "played_at" then Some(PlayedAtCol)
    else if name == "context_type" then Some(ContextTypeCol)
    else if name == "album" then Some(AlbumCol)
    else if name == "album_cover" then Some(AlbumCoverCol)
    else if name == "album_type" then Some(AlbumTypeCol)
    else if name == "album_release_date" then Some(AlbumReleaseDateCol)
    else if name == "artists" then Some(ArtistsCol)
    else if name == "artist_id" then Some(ArtistIdCol)
    else if name == "artist_image" then Some(ArtistImageCol)
    else None
  }

  /** Each column is found again by its name, so no two columns share one. */
  lemma ColumnNamedName(c: Column)
    ensures ColumnNamed(Name(c)) == Some(c)
    ensures forall d :: Name(d) == Name(c) ==> d == c
  {
    forall d | Name(d) == Name(c)
      ensures d == c
    {
      match d
      case PlayIdCol => case TrackIdCol => case TrackNameCol => case TrackLengthSecondsCol =>
      case TrackPopularityCol => case PlayedAtCol => case ContextTypeCol => case AlbumCol =>
      case AlbumCoverCol => case AlbumTypeCol => case AlbumReleaseDateCol => case ArtistsCol =>
      case ArtistIdCol => case ArtistImageCol =>
    }
  }

  /** A value as handed to the database driver. */
  datatype Cell = Null | Text(text: string) | Number(number: real) | Integer(integer: int) | Timestamp(time: DateTime)

  type Record = map<Column, Cell>

  function TextOrNull(v: Option<string>): Cell {
    match v
    case None => Null
    case Some(s) => Text(s)
  }

  function TimeOrNull(v: Option<DateTime>): Cell {
    match v
    case None => Null
    case Some(t) => Timestamp(t)
  }

  /** A row as the column-to-value record that is appended; the record has a
      cell for each column of the table and nothing else (no index column). */
  function ToRecord(row: Row): (rec: Record)
    ensures rec.Keys == AllColumns
  {
    map[
      PlayIdCol := Text(row.playId),
      TrackIdCol := Text(row.trackId),
      TrackNameCol := Text(row.trackName),
      TrackLengthSecondsCol := Number(row.trackLengthSeconds),
      TrackPopularityCol := Integer(row.trackPopularity),
      PlayedAtCol := Text(row.playedAt),
      ContextTypeCol := TextOrNull(row.contextType),
      AlbumCol := Text(row.album),
      AlbumCoverCol := TextOrNull(row.albumCover),
      AlbumTypeCol := Text(row.albumType),
      AlbumReleaseDateCol := TimeOrNull(row.albumReleaseDate),
      ArtistsCol := Text(row.artists),
      ArtistIdCol := Text(row.artistId),
      ArtistImageCol := TextOrNull(row.artistImage)]
  }

  function TextCell(rec: Record, c: Column): Option<string> {
    if c in rec && rec[c].Text? then Some(rec[c].text) else None
  }

  /** `None` for a malformed cell, `Some(None)` for NULL. */
  function NullableTextCell(rec: Record, c: Column): Option<Option<string>> {
    if c !in rec then None
    else
      match rec[c]
      case Null => Some(None)
      case Text(s) => Some(Some(s))
      case _ => None
  }

  function NullableTimeCell(rec: Record, c: Column): Option<Option<DateTime>> {
    if c !in rec then None
    else
      match rec[c]
      case Null => Some(None)
      case Timestamp(t) => Some(Some(t))
      case _ => None
  }

  /** Reads a stored record back as a row. */
  function FromRecord(rec: Record): Option<Row> {
    var playId :- TextCell(rec, PlayIdCol);
    var trackId :- TextCell(rec, TrackIdCol);
    var trackName :- TextCell(rec, TrackNameCol);
    var length :- if TrackLengthSecondsCol in rec && rec[TrackLengthSecondsCol].Number?
                  then Some(rec[TrackLengthSecondsCol].number) else None;
    var popularity :- if TrackPopularityCol in rec && rec[TrackPopularityCol].Integer?
                      then Some(rec[TrackPopularityCol].integer) else None;
    var playedAt :- TextCell(rec, PlayedAtCol);
    var contextType :- NullableTextCell(rec, ContextTypeCol);
    var album :- TextCell(rec, AlbumCol);
    var albumCover :- NullableTextCell(rec, AlbumCoverCol);
    var albumType :- TextCell(rec, AlbumTypeCol);
    var releaseDate :- NullableTimeCell(rec, AlbumReleaseDateCol);
    var artists :- TextCell(rec, ArtistsCol);
    var artistId :- TextCell(rec, ArtistIdCol);
    var artistImage :- NullableTextCell(rec, ArtistImageCol);
    Some(Row(playId, trackId, trackName, length, popularity, playedAt, contextType, album,
             albumCover, albumType, releaseDate, artists, artistId, artistImage))
  }

  /** No field is lost or altered on the way into a record: the stored record
      gives back the row. */
  lemma FromToRecord(row: Row)
    ensures FromRecord(ToRecord(row)) == Some(row)
  {
    var rec := ToRecord(row);
    assert TextCell(rec, PlayIdCol) == Some(row.playId);
    assert TextCell(rec, TrackIdCol) == Some(row.trackId);
    assert TextCell(rec, TrackNameCol) == Some(row.trackName);
    assert rec[TrackLengthSecondsCol] == Number(row.trackLengthSeconds);
    assert rec[TrackPopularityCol] == Integer(row.trackPopularity);
    assert TextCell(rec, PlayedAtCol) == Some(row.playedAt);
    assert NullableTextCell(rec, ContextTypeCol) == Some(row.contextType);
    assert TextCell(rec, AlbumCol) == Some(row.album);
    assert NullableTextCell(rec, AlbumCoverCol) == Some(row.albumCover);
    assert TextCell(rec, AlbumTypeCol) == Some(row.albumType);
    assert NullableTimeCell(rec, AlbumReleaseDateCol) == Some(row.albumReleaseDate);
    assert TextCell(rec, ArtistsCol) == Some(row.artists);
    assert TextCell(rec, ArtistIdCol) == Some(row.artistId);
    assert NullableTextCell(rec, ArtistImageCol) == Some(row.artistImage);
  }
}
