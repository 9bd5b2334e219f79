# Spotify recently-played ETL, modelled in Dafny

This project models the recurring job of the Spotify ETL pipeline,
`scripts/recently_played_tracks.py`. The job does five things in order:

1. It exchanges the stored refresh token for an access token, using a Basic
   credential built from the client id and secret.
2. It fetches up to fifty plays from the last twelve hours.
3. It reshapes the nested play events into flat rows and derives `play_id`,
   `artists`, `artist_id` and `album_cover`.
4. It looks up one image per distinct artist and joins it onto the rows by
   `artist_id`.
5. It appends the rows to the `most_recently_played_songs` table.

Every external service is a parameter of the model, written as a function
from the request to the reply: the token endpoint, the recently-played
endpoint, the artist endpoint and the database writer. So is every pandas
routine whose semantics lives in a library: release-date parsing
(`DateParser`) and the UTC to US/Central conversion (`ZoneConversion`). A run
(`Pipeline.Main`) is then a pure function of its inputs. It returns the
outcome together with the list of calls it made to the music service (token,
recently-played and artist lookups), so properties such as "no extraction
after a failed token exchange" become statements about that list. The
database write is part of the outcome (`Loader.Writes`).

Modules follow the job's stages:

- `Wrappers` holds `Option` and `Result`.
- `Bytes`, `Utf8` and `Base64` hold the encodings the Basic credential needs.
- `Errors` lists the exceptions that end a run.
- `Timestamps` holds timestamps and the `strftime` rendering.
- `Records` holds play events, rows, columns and stored records.
- The stages themselves are `Auth`, `Extractor`, `ArtistImages`,
  `Transformer`, `Loader` and `Pipeline`.

Behaviour of the code worth noting:

- Line 62 counts the items before the transform runs. So a reply without
  `items` raises a `KeyError`, and a null one a `TypeError`
  (`Extractor.CheckExtracted`). The transform's own guard (lines 89-91)
  treats a missing, null or empty list as "no table". In a run, only the
  empty list reaches it.
- A token reply without an `access_token` member raises a `KeyError` at
  line 41. The job's own `RuntimeError` (lines 42-43) covers only a null or
  empty token. Both end the run.
- `pd.json_normalize` creates the `context_type` column only if at least one
  item has a non-null `context` object. A batch where every context is null
  has no such column, so the selection at line 114 raises a `KeyError`
  (`Transformer.BatchError`).
- pandas works column by column. So for a batch with several problems, the
  error raised is the first in source order: an item without artists
  (line 97), then an unreadable play time (line 103), then the missing
  `context_type` column (line 114).

## Model

| member | source | states |
|---|---|---|
| `Utf8.Encode` | scripts/recently_played_tracks.py:27 | The UTF-8 form of a string is one to four octets per character, and exactly one per character for ASCII text. |
| `Utf8.DecodeEncode` | scripts/recently_played_tracks.py:27 | Encoding the credential string to UTF-8 is lossless: strict decoding gives back the same string. |
| `Base64.Encode` | scripts/recently_played_tracks.py:28 | The encoding of n octets has 4·⌈n/3⌉ characters, each one from the RFC 4648 alphabet or the pad character. |
| `Base64.DecodeEncode` | scripts/recently_played_tracks.py:28 | Decoding the Base64 text gives back exactly the encoded octets, for every input length, padding included. |
| `Auth.BasicAuthorization` | scripts/recently_played_tracks.py:26-31 | The Basic header is "Basic " followed only by Base64 alphabet and pad characters. |
| `Auth.DecodeBasicAuthorization` | scripts/recently_played_tracks.py:26-31 | The credential part of the Basic header decodes back to `client_id:client_secret`. |
| `Auth.SplitUserPass` | scripts/recently_played_tracks.py:26 | Splitting at the first colon gives a colon-free user-id that re-joins to the input, and fails only when there is no colon. |
| `Auth.SplitUserPassRoundTrip` | scripts/recently_played_tracks.py:26 | When the client id has no colon (section 2 of RFC 7617), splitting the decoded credential recovers the id and the secret. |
| `Auth.BearerAuthorization` | scripts/recently_played_tracks.py:47-49 | The Bearer header is "Bearer " followed by exactly the access token. |
| `Auth.BearerTokenRoundTrip` | scripts/recently_played_tracks.py:47-49 | The Bearer header determines its token: reading it back gives the token, and distinct tokens give distinct headers. |
| `Auth.TokenRequestFor` | scripts/recently_played_tracks.py:24-39 | The token POST goes to the token URL as a form with grant type "refresh_token", the stored refresh token and the client id. Its Authorization header decodes to the client's user-pass. |
| `Auth.AccessToken` | scripts/recently_played_tracks.py:40-44 | A token is returned exactly when the reply has a non-empty `access_token`. A missing member is a `KeyError`; a null or empty one is a `RuntimeError`. |
| `Extractor.RecentRequestFor` | scripts/recently_played_tracks.py:54-60 | The GET carries limit "50" and the Bearer token. Its `after` bound admits a play exactly when the play is less than twelve hours before now. |
| `Extractor.CheckExtracted` | scripts/recently_played_tracks.py:61-63 | The reply passes through unchanged exactly when it has an `items` list. A missing list is a `KeyError` and a null one a `TypeError`. |
| `ArtistImages.ArtistRequestFor` | scripts/recently_played_tracks.py:68-69 | The artist lookup URL is the artist base URL followed by exactly the artist id, and it carries the Bearer token. |
| `ArtistImages.ImageOf` | scripts/recently_played_tracks.py:70-83 | A lookup yields the first image's URL. It yields null exactly when the request failed, the `images` member is missing, or the list is empty. |
| `ArtistImages.Distinct` | scripts/recently_played_tracks.py:77 | `unique()` keeps each artist id exactly once, with nothing added or lost. |
| `ArtistImages.DistinctKeepsFirstAppearanceOrder` | scripts/recently_played_tracks.py:77 | The distinct ids come in order of first appearance. |
| `ArtistImages.ResolveArtistImages` | scripts/recently_played_tracks.py:75-84 | The map has one key per distinct artist id. Each value is that artist's image or null, and nothing is raised. Exactly one lookup is made per distinct id, in first-appearance order. |
| `Timestamps.Format` | scripts/recently_played_tracks.py:103 | The rendering is always 19 characters, with the separators at fixed positions. |
| `Timestamps.ParseFormat` | scripts/recently_played_tracks.py:103 | The rendering of a valid timestamp reads back as that timestamp truncated to the second. |
| `Timestamps.FormatInjective` | scripts/recently_played_tracks.py:103 | Two valid timestamps render alike exactly when they agree to the second. |
| `Timestamps.SameSecondWithinOneSecond` | scripts/recently_played_tracks.py:103 | Timestamps that agree to the second are less than one second apart. |
| `Transformer.SplitJoin` | scripts/recently_played_tracks.py:96 | When no artist name contains a comma, splitting the `artists` cell at ", " gives back the names in listed order. |
| `Transformer.JoinContainsFirstName` | scripts/recently_played_tracks.py:96 | The `artists` cell starts with the first artist's name. Its length is the sum of the names' lengths plus two per separator. |
| `Transformer.AlbumCover` | scripts/recently_played_tracks.py:100 | The album cover is null exactly when the album has no images, and otherwise the first image's URL. |
| `Transformer.SplitPlayIdRoundTrip` | scripts/recently_played_tracks.py:103 | A play id splits back into its track id and the UTC play time to the second, even when the track id contains underscores. |
| `Transformer.PlayIdInjective` | scripts/recently_played_tracks.py:103 | Two plays get the same play id exactly when they are of the same track in the same second. |
| `Transformer.PlayIdsSecondApartDiffer` | scripts/recently_played_tracks.py:103 | Plays of one track at least one second apart get distinct play ids. |
| `Transformer.Enrich` | scripts/recently_played_tracks.py:124 | Each row's `artist_image` becomes the map's entry for its `artist_id`. No other column and no row count changes. |
| `Transformer.BatchImageMap` | scripts/recently_played_tracks.py:123 | The batch's image map has exactly the rows' artist ids as keys, so every row's `artist_id` is a key. |
| `Transformer.Transform` | scripts/recently_played_tracks.py:87-127 | There is no table exactly when the batch has no items. The transform fails exactly when the batch has a pandas error, and then with that error. |
| `Transformer.TransformRows` | scripts/recently_played_tracks.py:93-124 | Each table row describes its item: its play id, every copied column, the length in seconds, the cover, the release date or null, the joined names, the first artist's id and that artist's image. |
| `Transformer.TransformPlayIdsCollideIffSameSecond` | scripts/recently_played_tracks.py:103 | Within one table, two rows share a play id exactly when they are plays of the same track in the same second. |
| `Transformer.PlayIdIgnoresZone` | scripts/recently_played_tracks.py:103-112 | The zone conversion affects only the `played_at` column. The play id comes from the UTC time, taken before the conversion. |
| `Transformer.TransformRequests` | scripts/recently_played_tracks.py:123 | The transform makes no artist lookup unless it reaches enrichment. Every lookup it makes carries the Bearer token. |
| `Transformer.TransformLookups` | scripts/recently_played_tracks.py:75-84 | The lookups behind a transformed table are exactly one per distinct artist id of its rows, in order of first appearance. |
| `Records.ColumnNamesExact` | scripts/recently_played_tracks.py:114-124 | The row's columns are exactly the table's fourteen columns, from `play_id` to `artist_image`. |
| `Records.ColumnNamedName` | scripts/recently_played_tracks.py:114-120 | Each column name denotes one column, so no two columns share a name. |
| `Records.ToRecord` | scripts/recently_played_tracks.py:137 | A stored record has a cell for every column and no other cell, so there is no index column. |
| `Records.FromToRecord` | scripts/recently_played_tracks.py:137 | A stored record gives back its row, so no column value is lost on the way in. |
| `Loader.RecordsOf` | scripts/recently_played_tracks.py:137 | One record is appended per row, in row order. |
| `Loader.Load` | scripts/recently_played_tracks.py:130-140 | A missing or empty table loads nothing. Otherwise the table's records are written once to `most_recently_played_songs`, and a write error is returned as an outcome, never raised. |
| `Loader.LoadWrites` | scripts/recently_played_tracks.py:132-137 | A missing or empty table makes zero writes. A non-empty one makes exactly one, to `most_recently_played_songs`, whose records carry all the table's columns and give back the rows. |
| `Pipeline.ExitCode` | scripts/recently_played_tracks.py:150-151 | The exit status is zero exactly when no exception escaped the run. |
| `Pipeline.TransformAndLoad` | scripts/recently_played_tracks.py:146-147 | The transform and load stages abort exactly when the batch has items and a pandas error, and then with that error. Otherwise nothing is loaded exactly when the batch has no items, and the load is the one of the transformed table. |
| `Pipeline.RunWithToken` | scripts/recently_played_tracks.py:145-146 | After the token exchange, the first call is the recently-played GET. Every later call is an artist lookup with the same Bearer token. A reply without `items` aborts with `KeyError`, a null list with `TypeError`, and a list goes on to transform and load. |
| `Pipeline.Main` | scripts/recently_played_tracks.py:143-147 | A run always begins with the token call. Without an access token it ends there, aborted. With one, the run is the remaining stages under that token. |
| `Pipeline.TokenFailureStopsBeforeExtraction` | scripts/recently_played_tracks.py:143-145 | Without a usable access token, the run aborts with that error after the token call alone. The recently-played endpoint is never called. |
| `Pipeline.CallOrder` | scripts/recently_played_tracks.py:143-147 | A run calls the token endpoint first. Then, with a token, it makes the one twelve-hour recently-played GET. After that come only Bearer-authenticated artist lookups: for a transformed table, exactly one per distinct artist id of its rows, in order of first appearance. |
| `Pipeline.ArtistLookupsOfRun` | scripts/recently_played_tracks.py:75-84 | With a token, a run that produces a table looks up each distinct artist id of the table once, in order of first appearance, after the token call and the GET. A run that produces no table makes only those two calls. |
| `Pipeline.RunOutcome` | scripts/recently_played_tracks.py:139-147 | A run aborts exactly on a token, extraction or transform error, and a token error is the one it aborts with. A completed run returns status zero and carries the load outcome, even when the write failed. |
| `Pipeline.RunAbortsWith` | scripts/recently_played_tracks.py:62-147 | With a token, the run aborts with `KeyError` for a reply without `items`, with `TypeError` for a null list, and otherwise with the batch's first pandas error. An error-free batch with items completes and loads its rows. |
| `Pipeline.EmptyExtractionLoadsNothing` | scripts/recently_played_tracks.py:89-91 | An empty extraction completes normally. It makes no write and no artist lookup. |

## Left out

- HTTP (`requests.post`, `requests.get`) and JSON decoding are left out. Each endpoint is a function from the modelled request to the decoded reply. Transport errors are a reply variant only for the artist lookup, the one place where they are caught.
- The `.env` and `os.getenv` reads (lines 10-18) are configuration I/O. `Auth.Config` carries the values. An unset variable, which makes `None + ':'` raise, is not modelled.
- The SQLAlchemy engine, its connection URL (line 136) and `to_sql` are a foreign library. The database is a writer function that either accepts the records or returns an error message.
- `print` logging carries no logic.
- The `json_normalize` column naming is modelled only for the fields the job reads. A nested key missing from some items (which pandas fills with NaN) is not modelled, except for the `context` object.
- `Transformer.BatchError`: checks each play time on its own. `pd.to_datetime` on the `played_at` column (lines 103 and 112) infers one format for the whole column from its first value, so a batch mixing timestamps with and without fractional seconds may raise in the job where the model finds no error. That inference is not modelled.
- The `pd.to_datetime(..., errors='coerce')` parsing of release dates is an opaque `DateParser`, applied to each item on its own. pandas may infer one format for the whole column; that inference is not modelled.
- The UTC to US/Central conversion uses the time-zone database and daylight saving, so it is an opaque `ZoneConversion`.
- `Timestamps.Valid`: accepts years 1 to 9999. The narrower range of a pandas nanosecond `Timestamp` (1677 to 2262) is a library limit, not part of the job's logic.
- `Transformer.TransformRows`: states `track_length_seconds` as the exact real `duration_ms / 1000`. The float division at line 106 rounds; floating point is not modelled.
- `Extractor.RecentRequestFor`: takes the clock as integer milliseconds. The float arithmetic of `time.time()` and the `int()` truncation at line 54 are not modelled.
- `Transformer.SplitJoin`: the `artists` cell can be split back only when no artist name contains a comma. In general the join is not invertible, and the model claims nothing more.
- `scripts/authentication_code.py` and `scripts/refresh_token.py` are one-time, human-driven setup scripts made of I/O and a library URL-encode. They are not part of this model.
- `dags/spotify_recently_played_dag.py` is scheduler configuration (cron string, retries) with no logic of its own. It is not part of this model.
- Overlapping runs that double-append a play window are not modelled. The job has no guard against them, and a run here is a single invocation.
