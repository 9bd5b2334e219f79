/** The transformer: reshapes the extracted play events into table rows and
    joins in the artist images. */
module Transformer {
  import opened Wrappers
  import opened Errors
  import opened Timestamps
  import opened Records
  import opened Extractor
  import opened ArtistImages
  import Auth

  /** `pd.to_datetime(..., errors='coerce')` on a release date: `None` for
      text it cannot read. */
  type DateParser = string -> Option<DateTime>

  /** The UTC to US/Central conversion (time-zone database, daylight saving). */
  type ZoneConversion = DateTime -> DateTime

  const ArtistSeparator := ", "

  /* ---------- the artists column ---------- */

  function Names(artists: seq<Artist>): (names: seq<string>)
    ensures |names| == |artists| && forall i :: 0 <= i < |artists| ==> names[i] == artists[i].name
  {
    seq(|artists|, i requires 0 <= i < |artists| => artists[i].name)
  }

  /** `', '.join(names)`. */
  function Join(names: seq<string>): string {
    if |names| == 0 then ""
    else if |names| == 1 then names[0]
    else names[0] + ArtistSeparator + Join(names[1..])
  }

  /** The position of the first comma, if any. */
  function CommaIndex(s: string): (r: Option<nat>)
    ensures r.None? <==> ',' !in s
    ensures r.Some? ==> r.value < |s| && s[r.value] == ',' && ',' !in s[..r.value]
  {
    if |s| == 0 then None
    else if s[0] == ',' then Some(0)
    else
      match CommaIndex(s[1..])
      case None => None
      case Some(k) =>
        assert s[..k + 1] == [s[0]] + s[1..][..k];
        Some(k + 1)
  }

  /** Splits an `artists` cell back into names at each `", "`. */
  function SplitNames(s: string): (names: seq<string>)
    ensures |names| >= 1
    decreases |s|
  {
    match CommaIndex(s)
    case None => [s]
    case Some(k) => if k + 2 <= |s| then [s[..k]] + SplitNames(s[k + 2..]) else [s[..k]]
  }

  lemma CommaIndexAfterName(name: string, rest: string)
    requires ',' !in name
    ensures CommaIndex(name + ArtistSeparator + rest) == Some(|name|)
  {
    var s := name + ArtistSeparator + rest;
    assert s[|name|] == ',';
    assert s[..|name|] == name;
    assert forall k :: 0 <= k < |name| ==> s[k] == name[k];
  }

  /** When no artist name contains a comma, the `artists` cell determines the
      list of names, in order. */
  lemma {:induction false} SplitJoin(names: seq<string>)
    requires |names| >= 1
    requires forall i :: 0 <= i < |names| ==> ',' !in names[i]
    ensures SplitNames(Join(names)) == names
    decreases |names|
  {
    if |names| > 1 {
      var rest := Join(names[1..]);
      var s := names[0] + ArtistSeparator + rest;
      assert Join(names) == s;
      CommaIndexAfterName(names[0], rest);
      assert s[..|names[0]|] == names[0];
      assert s[|names[0]| + 2..] == rest;
      assert SplitNames(s) == [names[0]] + SplitNames(rest);
      assert forall i :: 0 <= i < |names| - 1 ==> names[1..][i] == names[i + 1];
      SplitJoin(names[1..]);
      assert [names[0]] + names[1..] == names;
    }
  }

  /** The joined cell starts with the first name, and is as long as all the
      names together plus one separator between each two. */
  lemma {:induction false} JoinContainsFirstName(names: seq<string>)
    requires |names| >= 1
    ensures |Join(names)| >= |names[0]| && Join(names)[..|names[0]|] == names[0]
    ensures |Join(names)| == (SumLengths(names) + |ArtistSeparator| * (|names| - 1))
  {
    if |names| > 1 {
      JoinContainsFirstName(names[1..]);
    }
  }

  function SumLengths(names: seq<string>): nat {
    if |names| == 0 then 0 else |names[0]| + SumLengths(names[1..])
  }

  /* ---------- the other derived columns ---------- */

  /** The first album image's URL, or null for an album without images. */
  function AlbumCover(images: seq<Image>): (cover: Option<string>)
    ensures cover.None? <==> |images| == 0
    ensures cover.Some? ==> cover.value == images[0].url
  {
    if |images| == 0 then None else Some(images[0].url)
  }

  const PlayIdTimeLength := 19

  /** The track id, an underscore, and the UTC play time to the second. */
  function PlayId(trackId: string, playedAt: DateTime): (id: string)
    ensures |id| == |trackId| + 1 + PlayIdTimeLength
  {
    trackId + "_" + Format(playedAt, '_')
  }

  /** Reads a play id back as its track id and play time; the time part has a
      fixed width, so a track id may itself contain underscores. */
  function SplitPlayId(id: string): Option<(string, DateTime)> {
    if |id| < PlayIdTimeLength + 1 || id[|id| - PlayIdTimeLength - 1] != '_' then None
    else
      match Parse(id[|id| - PlayIdTimeLength..], '_')
      case None => None
      case Some(t) => Some((id[..|id| - PlayIdTimeLength - 1], t))
  }

  lemma SplitPlayIdRoundTrip(trackId: string, playedAt: DateTime)
    requires Valid(playedAt)
    ensures SplitPlayId(PlayId(trackId, playedAt)) == Some((trackId, Truncated(playedAt)))
  {
    var id := PlayId(trackId, playedAt);
    assert id[|id| - PlayIdTimeLength..] == Format(playedAt, '_');
    assert id[..|id| - PlayIdTimeLength - 1] == trackId;
    ParseFormat(playedAt, '_');
  }

  /** Two plays share a play id exactly when they are of the same track within
      the same second. */
  lemma PlayIdInjective(t1: string, a: DateTime, t2: string, b: DateTime)
    requires Valid(a) && Valid(b)
    ensures PlayId(t1, a) == PlayId(t2, b) <==> t1 == t2 && Truncated(a) == Truncated(b)
  {
    if PlayId(t1, a) == PlayId(t2, b) {
      SplitPlayIdRoundTrip(t1, a);
      SplitPlayIdRoundTrip(t2, b);
    } else if t1 == t2 {
      FormatInjective(a, b, '_');
    }
  }

  /** Plays of one track at least a second apart get distinct play ids. */
  lemma PlayIdsSecondApartDiffer(trackId: string, a: DateTime, b: DateTime)
    requires Valid(a) && Valid(b)
    requires EpochMicros(a) - EpochMicros(b) >= 1000000 || EpochMicros(b) - EpochMicros(a) >= 1000000
    ensures PlayId(trackId, a) != PlayId(trackId, b)
  {
    SameSecondWithinOneSecond(a, b);
    PlayIdInjective(trackId, a, trackId, b);
  }

  /* ---------- rows ---------- */

  /** One event's row before the artist image is joined in (`artistImage`
      still null). */
  function ShapeRow(e: PlayEvent, parseDate: DateParser, toCentral: ZoneConversion): (row: Row)
    requires |e.track.artists| > 0
    ensures row.artistImage.None?
  {
    Row(
      playId := PlayId(e.track.id, e.playedAt),
      trackId := e.track.id,
      trackName := e.track.name,
      trackLengthSeconds := e.track.durationMs as real / 1000.0,
      trackPopularity := e.track.popularity,
      playedAt := Format(toCentral(e.playedAt), ' '),
      contextType := e.contextType,
      album := e.track.album.name,
      albumCover := AlbumCover(e.track.album.images),
      albumType := e.track.album.albumType,
      albumReleaseDate := parseDate(e.track.album.releaseDate),
      artists := Join(Names(e.track.artists)),
      artistId := e.track.artists[0].id,
      artistImage := None)
  }

  /** The `artist_image` column: the row's artist id looked up in the map. */
  function Enrich(rows: seq<Row>, m: ImageMap): (enriched: seq<Row>)
    requires forall i :: 0 <= i < |rows| ==> rows[i].artistId in m
    ensures |enriched| == |rows|
    ensures forall i :: 0 <= i < |rows| ==>
              && enriched[i].artistImage == m[rows[i].artistId]
              && enriched[i].(artistImage := rows[i].artistImage) == rows[i]
  {
    seq(|rows|, i requires 0 <= i < |rows| => rows[i].(artistImage := m[rows[i].artistId]))
  }

  /** The batch holds at least one item. */
  predicate HasItems(data: Extracted) {
    data.items.Items? && |data.items.items| > 0
  }

  /** The failure pandas raises for a non-empty batch, column by column: an
      event with no artists fails the first-artist `[0]` before an unreadable
      play time fails `pd.to_datetime`, and a batch in which no event has a
      context object has no `context_type` column to select. */
  function BatchError(items: seq<PlayEvent>): Option<Fatal> {
    if exists i :: 0 <= i < |items| && |items[i].track.artists| == 0 then
      Some(IndexError("list index out of range"))
    else if exists i :: 0 <= i < |items| && !Valid(items[i].playedAt) then
      Some(ParseError("played_at"))
    else if forall i :: 0 <= i < |items| ==> items[i].contextType.None? then
      Some(KeyError("context_type"))
    else
      None
  }

  /** The rows of an error-free batch, before enrichment. */
  function ShapeRows(items: seq<PlayEvent>, parseDate: DateParser, toCentral: ZoneConversion): (rows: seq<Row>)
    requires BatchError(items).None?
    ensures |rows| == |items|
    ensures forall i :: 0 <= i < |items| ==> rows[i] == ShapeRow(items[i], parseDate, toCentral)
  {
    seq(|items|, i requires 0 <= i < |items| => ShapeRow(items[i], parseDate, toCentral))
  }

  /** The artist-image map for a batch: every distinct artist id of its rows. */
  function BatchImageMap(rows: seq<Row>, token: string, fetch: Fetch): (m: ImageMap)
    ensures forall i :: 0 <= i < |rows| ==> rows[i].artistId in m
    ensures m.Keys == set i | 0 <= i < |rows| :: rows[i].artistId
  {
    var m := ImageMapFor(ArtistIds(rows), token, fetch);
    assert forall i :: 0 <= i < |rows| ==> ArtistIds(rows)[i] in ArtistIds(rows);
    m
  }

  /** The whole transform: no table for a batch without items, a fatal error
      for a batch pandas cannot reshape, otherwise one enriched row per item. */
  function Transform(data: Extracted, token: string, fetch: Fetch,
                     parseDate: DateParser, toCentral: ZoneConversion): (r: Result<Option<seq<Row>>, Fatal>)
    ensures r == Success(None) <==> !HasItems(data)
    ensures r.Failure? <==> HasItems(data) && BatchError(data.items.items).Some?
    ensures r.Failure? ==> r.error == BatchError(data.items.items).value
    ensures r.Success? && r.value.Some? ==> |r.value.value| == |data.items.items|
  {
    if !HasItems(data) then Success(None)
    else
      var items := data.items.items;
      match BatchError(items)
      case Some(e) => Failure(e)
      case None =>
        var rows := ShapeRows(items, parseDate, toCentral);
        Success(Some(Enrich(rows, BatchImageMap(rows, token, fetch))))
  }

  /** The artist lookups the transform issues: none unless it reaches the
      enrichment step, then one per distinct artist id. */
  function TransformRequests(data: Extracted, token: string, parseDate: DateParser,
                             toCentral: ZoneConversion): (rs: seq<ArtistRequest>)
    ensures !HasItems(data) || BatchError(data.items.items).Some? ==> rs == []
    ensures forall k :: 0 <= k < |rs| ==> Auth.BearerToken(rs[k].authorization) == Some(token)
  {
    if !HasItems(data) || BatchError(data.items.items).Some? then []
    else LookupRequests(ArtistIds(ShapeRows(data.items.items, parseDate, toCentral)), token)
  }

  /** Enrichment leaves the artist ids of the rows as they were. */
  lemma EnrichKeepsArtistIds(rows: seq<Row>, m: ImageMap)
    requires forall i :: 0 <= i < |rows| ==> rows[i].artistId in m
    ensures ArtistIds(Enrich(rows, m)) == ArtistIds(rows)
  {
    assert forall i :: 0 <= i < |rows| ==> ArtistIds(Enrich(rows, m))[i] == ArtistIds(rows)[i];
  }

  /** The lookups behind a transformed table are exactly one per distinct
      artist id of its rows, in order of first appearance. */
  lemma TransformLookups(data: Extracted, token: string, fetch: Fetch,
                         parseDate: DateParser, toCentral: ZoneConversion, rows: seq<Row>)
    requires Transform(data, token, fetch, parseDate, toCentral) == Success(Some(rows))
    ensures TransformRequests(data, token, parseDate, toCentral) == LookupRequests(ArtistIds(rows), token)
  {
    var items := data.items.items;
    var shaped := ShapeRows(items, parseDate, toCentral);
    var m := BatchImageMap(shaped, token, fetch);
    TransformEnriches(data, token, fetch, parseDate, toCentral);
    EnrichKeepsArtistIds(shaped, m);
  }

  /** What one output row says about its play event, stated column by column
      without reference to how the row is built. */
  ghost predicate RowDescribes(row: Row, e: PlayEvent, token: string, fetch: Fetch,
                               parseDate: DateParser, toCentral: ZoneConversion) {
    && |e.track.artists| > 0
    && SplitPlayId(row.playId) == Some((e.track.id, Truncated(e.playedAt)))
    && row.trackId == e.track.id
    && row.trackName == e.track.name
    && row.trackLengthSeconds * 1000.0 == e.track.durationMs as real
    && row.trackPopularity == e.track.popularity
    && row.playedAt == Format(toCentral(e.playedAt), ' ')
    && row.contextType == e.contextType
    && row.album == e.track.album.name
    && (row.albumCover.None? <==> |e.track.album.images| == 0)
    && (row.albumCover.Some? ==> row.albumCover.value == e.track.album.images[0].url)
    && row.albumType == e.track.album.albumType
    && row.albumReleaseDate == parseDate(e.track.album.releaseDate)
    && row.artists == Join(Names(e.track.artists))
    && row.artistId == e.track.artists[0].id
    && row.artistImage == ImageOf(fetch(ArtistRequestFor(row.artistId, token)))
  }

  /** An enriched row describes the event it was shaped from. */
  lemma ShapedRowDescribes(e: PlayEvent, m: ImageMap, token: string, fetch: Fetch,
                           parseDate: DateParser, toCentral: ZoneConversion)
    requires |e.track.artists| > 0 && Valid(e.playedAt)
    requires e.track.artists[0].id in m
    requires m[e.track.artists[0].id] == ImageOf(fetch(ArtistRequestFor(e.track.artists[0].id, token)))
    ensures var shaped := ShapeRow(e, parseDate, toCentral);
            RowDescribes(shaped.(artistImage := m[shaped.artistId]), e, token, fetch, parseDate, toCentral)
  {
    SplitPlayIdRoundTrip(e.track.id, e.playedAt);
  }

  /** Every event of an error-free batch has an artist and a readable play time. */
  lemma NoBatchErrorEach(items: seq<PlayEvent>, i: nat)
    requires BatchError(items).None? && i < |items|
    ensures |items[i].track.artists| > 0 && Valid(items[i].playedAt)
  {
    assert !Valid(items[i].playedAt) ==> BatchError(items).Some?;
    assert |items[i].track.artists| == 0 ==> BatchError(items).Some?;
  }

  /** Row `i` of a transformed table is item `i` shaped and enriched. */
  lemma TransformRowAt(data: Extracted, token: string, fetch: Fetch,
                       parseDate: DateParser, toCentral: ZoneConversion, rows: seq<Row>, i: nat)
    requires Transform(data, token, fetch, parseDate, toCentral) == Success(Some(rows))
    requires i < |rows|
    ensures HasItems(data) && |rows| == |data.items.items|
    ensures |data.items.items[i].track.artists| > 0 && Valid(data.items.items[i].playedAt)
    ensures var shaped := ShapeRow(data.items.items[i], parseDate, toCentral);
            && shaped.artistId in BatchImageMap(ShapeRows(data.items.items, parseDate, toCentral), token, fetch)
            && rows[i] == shaped.(artistImage := BatchImageMap(ShapeRows(data.items.items, parseDate, toCentral),
                                                               token, fetch)[shaped.artistId])
  {
    var items := data.items.items;
    var shaped := ShapeRows(items, parseDate, toCentral);
    TransformEnriches(data, token, fetch, parseDate, toCentral);
    NoBatchErrorEach(items, i);
  }

  /** A transformed table has one row per extracted item, in item order, and
      each row describes its item. */
  lemma TransformRows(data: Extracted, token: string, fetch: Fetch,
                      parseDate: DateParser, toCentral: ZoneConversion, rows: seq<Row>)
    requires Transform(data, token, fetch, parseDate, toCentral) == Success(Some(rows))
    ensures HasItems(data) && |rows| == |data.items.items|
    ensures forall i :: 0 <= i < |rows| ==>
              RowDescribes(rows[i], data.items.items[i], token, fetch, parseDate, toCentral)
  {
    var items := data.items.items;
    var shaped := ShapeRows(items, parseDate, toCentral);
    var m := BatchImageMap(shaped, token, fetch);
    assert ResolvedFor(m, ArtistIds(shaped), token, fetch);
    forall i | 0 <= i < |rows|
      ensures RowDescribes(rows[i], items[i], token, fetch, parseDate, toCentral)
    {
      TransformRowAt(data, token, fetch, parseDate, toCentral, rows, i);
      ShapedRowDescribes(items[i], m, token, fetch, parseDate, toCentral);
    }
  }

  /** Within one table, two rows share a play id exactly when their plays are
      of the same track within the same second. */
  lemma TransformPlayIdsCollideIffSameSecond(data: Extracted, token: string, fetch: Fetch,
                                             parseDate: DateParser, toCentral: ZoneConversion,
                                             rows: seq<Row>, i: nat, j: nat)
    requires Transform(data, token, fetch, parseDate, toCentral) == Success(Some(rows))
    requires i < |rows| && j < |rows|
    ensures i < |data.items.items| && j < |data.items.items|
    ensures rows[i].playId == rows[j].playId <==>
              data.items.items[i].track.id == data.items.items[j].track.id
              && Truncated(data.items.items[i].playedAt) == Truncated(data.items.items[j].playedAt)
  {
    TransformRowAt(data, token, fetch, parseDate, toCentral, rows, i);
    TransformRowAt(data, token, fetch, parseDate, toCentral, rows, j);
    var a, b := data.items.items[i], data.items.items[j];
    PlayIdInjective(a.track.id, a.playedAt, b.track.id, b.playedAt);
  }

  /** The play id is taken from the UTC play time: the zone conversion changes
      the `played_at` column and nothing else. */
  lemma PlayIdIgnoresZone(data: Extracted, token: string, fetch: Fetch, parseDate: DateParser,
                          zone1: ZoneConversion, zone2: ZoneConversion)
    requires Transform(data, token, fetch, parseDate, zone1).Success?
    ensures Transform(data, token, fetch, parseDate, zone2).Success?
    ensures Transform(data, token, fetch, parseDate, zone1).value.Some? ==>
              var rows1 := Transform(data, token, fetch, parseDate, zone1).value.value;
              var rows2 := Transform(data, token, fetch, parseDate, zone2).value.value;
              |rows1| == |rows2| &&
              forall i :: 0 <= i < |rows1| ==> rows1[i].(playedAt := rows2[i].playedAt) == rows2[i]
  {
    if HasItems(data) {
      var items := data.items.items;
      var shaped1 := ShapeRows(items, parseDate, zone1);
      var shaped2 := ShapeRows(items, parseDate, zone2);
      ShapeRowsIgnoreZone(items, parseDate, zone1, zone2);
      var m := BatchImageMap(shaped1, token, fetch);
      EnrichKeepsPlayedAtApart(shaped1, shaped2, m);
      TransformEnriches(data, token, fetch, parseDate, zone1);
      TransformEnriches(data, token, fetch, parseDate, zone2);
    }
  }

  /** The transform of an error-free batch with items is its enriched rows. */
  lemma TransformEnriches(data: Extracted, token: string, fetch: Fetch,
                          parseDate: DateParser, toCentral: ZoneConversion)
    requires HasItems(data) && BatchError(data.items.items).None?
    ensures var shaped := ShapeRows(data.items.items, parseDate, toCentral);
            Transform(data, token, fetch, parseDate, toCentral)
              == Success(Some(Enrich(shaped, BatchImageMap(shaped, token, fetch))))
  {
  }

  /** Shaping under two zone conversions differs only in `played_at`. */
  lemma ShapeRowsIgnoreZone(items: seq<PlayEvent>, parseDate: DateParser,
                            zone1: ZoneConversion, zone2: ZoneConversion)
    requires BatchError(items).None?
    ensures var shaped1 := ShapeRows(items, parseDate, zone1);
            var shaped2 := ShapeRows(items, parseDate, zone2);
            && ArtistIds(shaped1) == ArtistIds(shaped2)
            && forall i :: 0 <= i < |shaped1| ==> shaped1[i].(playedAt := shaped2[i].playedAt) == shaped2[i]
  {
    var shaped1 := ShapeRows(items, parseDate, zone1);
    var shaped2 := ShapeRows(items, parseDate, zone2);
    assert forall i :: 0 <= i < |items| ==> shaped1[i].artistId == shaped2[i].artistId;
  }

  /** Enriching two row lists that differ only in `played_at` with one map
      keeps them differing only in `played_at`. */
  lemma EnrichKeepsPlayedAtApart(rows1: seq<Row>, rows2: seq<Row>, m: ImageMap)
    requires |rows1| == |rows2|
    requires forall i :: 0 <= i < |rows1| ==> rows1[i].artistId in m
    requires forall i :: 0 <= i < |rows1| ==> rows1[i].(playedAt := rows2[i].playedAt) == rows2[i]
    ensures var e1 := Enrich(rows1, m);
            var e2 := Enrich(rows2, m);
            forall i :: 0 <= i < |e1| ==> e1[i].(playedAt := e2[i].playedAt) == e2[i]
  {
    var e1 := Enrich(rows1, m);
    var e2 := Enrich(rows2, m);
    forall i | 0 <= i < |e1|
      ensures e1[i].(playedAt := e2[i].playedAt) == e2[i]
    {
      assert rows1[i].artistId == rows2[i].artistId;
    }
  }
}
