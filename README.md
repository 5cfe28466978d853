# National-park data ingestion and state search: a Dafny model

The backend copies three kinds of records from the U.S. National Park Service
API into a relational store: parks, campgrounds and alerts. Each of
`upsert_parks`, `upsert_campgrounds` and `upsert_alerts` works the same way:

1. It reads the `data` array of a fetched JSON envelope.
2. It normalises each loosely typed record into a row. For parks this
   includes parsing the `"lat:<LAT>, long:<LON>"` coordinate text. For
   campgrounds it includes converting the site count.
3. It merges each row into a database session by primary key.
4. It commits once, at the end.

The dashboard's "campgrounds by state" section does three things:

- it cuts the user's query into state tokens;
- it asks the backend once per token;
- it concatenates the rows of every good answer into one result list.

The model has these modules:

| file | module | what it holds |
|---|---|---|
| `wrappers.dfy` | `Wrappers` | `Option` and `Result` |
| `py.dfy` | `Py` | decoded JSON (`Json`), the exceptions that can escape a run (`PyError`), `dict.get`, truthiness |
| `strings.dfy` | `PyStr` | Python's `str.replace`, `str.split`, `str.strip` and `str.upper`, with the facts the proofs need about them |
| `models.dfy` | `Models` | the three row types, their primary keys, and their schema defaults |
| `table.dfy` | `Table` | a table as a `map` from primary key to row; `Upsert` folds a batch in (the session's merges); `Reconcile` is the table after a commit or an exception |
| `batch.dfy` | `Batch` | reading the envelope's `data` array; normalising and merging the records in order, with a refused row reported at the next flush |
| `coords.dfy` | `Coordinates` | the `latLong` parser |
| `fetcher.dfy` | `NpsFetcher` | the per-record normalisers; the merge loop (`MergeBatch`); the class `Store`, holding the three tables, whose three `Upsert…` methods are the three ingestion routines |
| `state_search.dfy` | `StateSearch` | query tokenisation; the per-state accumulation loop; what the section shows |

How the source's machinery is represented:

- `float()` and `int()` are parameters (`string -> Option<…>`). `None` stands for "raises".
- The HTTP responses of the dashboard are a parameter: a function from state token to response.
- `session.merge` is a map update.
- `session.commit()` publishes the session's map.
- An exception escaping the loop leaves the committed table as it was.
- A required column (`name`, `title`, a key or a park reference) that comes out `None` is not refused while its record is read. The row is merged, and the store refuses it with `NotNullViolation` at the next flush. That flush happens when the next record's row is merged, or at the commit when it was the last record. An exception raised while the next record is read comes first. Either way the whole run fails.

The model follows the code, not a reading of it. A natural reading is that
latitude and longitude are both absent whenever the text is malformed. That
does not hold for a text with a latitude and no usable longitude. `lat` is
assigned before the second piece is looked at, and the exception from the
missing or bad piece is swallowed. So the latitude is kept and the longitude is
`None` (`Coordinates.LatitudeOnly`, `Coordinates.WellFormed`).

## Model

| member | source | states |
|---|---|---|
| Py.Get | backend/app/services/nps_fetcher.py:24 | `d.get(key)` is the stored value exactly when the key is present, and `None` otherwise |
| Py.GetOr | backend/app/services/nps_fetcher.py:25 | `d.get(key, default)` is the stored value when the key is present, and the default otherwise |
| PyStr.ContainsAt | backend/app/services/nps_fetcher.py:29 | `p in s` holds exactly when some position of `s` starts `p` |
| PyStr.Replace | backend/app/services/nps_fetcher.py:31 | `str.replace`, leftmost and non-overlapping; a text that does not contain the pattern is returned unchanged |
| PyStr.ReplaceSkip | backend/app/services/nps_fetcher.py:31 | a prefix in which no position starts the pattern passes through `replace` untouched |
| PyStr.Split | backend/app/services/nps_fetcher.py:31 | `str.split(sep)` gives one more piece than there are separators, keeps empty pieces, and no piece holds the separator |
| PyStr.JoinSplit | backend/app/services/nps_fetcher.py:31 | joining the pieces of `split` with the separator gives back the original text |
| PyStr.SplitJoin | frontend/app.py:141 | splitting a comma-join of separator-free parts gives back those parts |
| PyStr.Strip | backend/app/services/nps_fetcher.py:32-33 | `str.strip()` leaves no whitespace at either end and keeps only characters of its input |
| PyStr.StripExact | backend/app/services/nps_fetcher.py:32-33 | `str.strip()` is the slice between the leading and the trailing whitespace: everything before it and everything after it is whitespace, and nothing inside is dropped |
| PyStr.StripTrimmed | backend/app/services/nps_fetcher.py:32-33 | a text with no whitespace at either end is its own strip |
| PyStr.Upper | frontend/app.py:141 | `str.upper()` keeps the length and maps each character on its own: ASCII lower-case letters to upper case, everything else unchanged |
| PyStr.UpperIdempotent | frontend/app.py:141 | upper-casing twice is upper-casing once |
| Models.NewPark | backend/app/models.py:6-13 | a park is keyed by `park_id`; `name` is required; every other column defaults to `None` |
| Models.NewCampground | backend/app/models.py:15-20 | a campground is keyed by `campground_id`; the park reference and `name` are required; `total_sites` and `reservation_url` default to `None` |
| Models.NewAlert | backend/app/models.py:22-28 | an alert is keyed by `alert_id`; the park reference and `title` are required; `category`, `description` and `date_created` default to `None` |
| Table.Upsert | backend/app/services/nps_fetcher.py:23-48 | after the batch's merges, the table holds the old keys plus the batch's keys, and no other key |
| Table.UpsertLastWins | backend/app/services/nps_fetcher.py:23-48 | under each key the table holds exactly the batch's last row with that key |
| Table.UpsertOverwrites | backend/app/services/nps_fetcher.py:47 | on every key the batch writes, the result does not depend on the old row (full overwrite, no field merge) |
| Table.UpsertUntouched | backend/app/services/nps_fetcher.py:23-48 | a key no record of the batch carries keeps its row, or stays absent |
| Table.UpsertIdempotent | backend/app/services/nps_fetcher.py:23-48 | merging the same batch twice gives the table that merging it once gives |
| Table.UpsertKeyed | backend/app/services/nps_fetcher.py:47 | primary keys stay unique: every row sits under its own key before the batch and after it |
| Table.Reconcile | backend/app/services/nps_fetcher.py:22-48 | an exception before the commit leaves the table unchanged; a committed batch adds exactly its keys |
| Table.ReconcileIdempotent | backend/app/services/nps_fetcher.py:18-48 | re-running with the same envelope leaves the table as the first run left it |
| Batch.Envelope | backend/app/services/nps_fetcher.py:19-23 | a dict envelope yields exactly the list under `"data"`, or no records when `"data"` is absent; an empty string or dict under `"data"` yields no records, and a non-empty one raises `AttributeError` at the first record's `.get`; null, a boolean or a number under `"data"` raises `TypeError`; an envelope that is not a dict raises `AttributeError` |
| Batch.RunFrom | backend/app/services/nps_fetcher.py:23-48 | the loop from some record on, with a refused row possibly waiting for the next flush: a waiting refusal always fails the run; it is reported unless the next record raises while it is read, in which case that exception is |
| Batch.Traverse | backend/app/services/nps_fetcher.py:23-48 | a run succeeds exactly when every record normalises, and then yields one row per record, in order |
| Batch.TraverseFirstError | backend/app/services/nps_fetcher.py:23-48 | the exception a run reports is its first failing record's, except that a refused `None` is overtaken by an exception the next record raises while it is read |
| Batch.TraverseAllOk | backend/app/services/nps_fetcher.py:23-47 | when every record normalises to a given row, the run yields exactly those rows |
| Batch.Run | backend/app/services/nps_fetcher.py:19-23 | an envelope that raises ends the run with that exception; a good run has one row per record |
| NpsFetcher.ParkBatch | backend/app/services/nps_fetcher.py:18-48 | the park run: an envelope that raises ends it with that exception; it succeeds exactly when every record yields a park row, and then holds those rows in order |
| Coordinates.ParseLabelled | backend/app/services/nps_fetcher.py:30-35 | inside the `try`, a longitude is never set without a latitude |
| Coordinates.ParseLatLong | backend/app/services/nps_fetcher.py:25-35 | the guard raises `TypeError` exactly for a truthy number or `True`; coordinates are set only for text that contains `"lat:"`; never a longitude without a latitude |
| Coordinates.RemoveLatLabel | backend/app/services/nps_fetcher.py:31 | when neither `a` nor `rest` contains a `:`, removing `"lat:"` from `"lat:" + a + ", long:" + rest` leaves `a + ", long:" + rest` |
| Coordinates.RemoveLongLabel | backend/app/services/nps_fetcher.py:31 | when neither `a` nor `rest` contains a `:`, removing `"long:"` from `a + ", long:" + rest` leaves `a + ", " + rest` |
| Coordinates.SplitCleaned | backend/app/services/nps_fetcher.py:31 | when neither `a` nor `b` contains a comma and `tail` is empty or starts with a comma, `a + ", " + b + tail` splits into `a`, then `" " + b`, then any further pieces |
| Coordinates.WellFormed | backend/app/services/nps_fetcher.py:28-35 | for `"lat:" + a + ", long:" + b + tail`, where `a` and `b` contain no comma and no colon, and `tail` contains no colon and is empty or starts with a comma: the latitude is `float(a.strip())` and the longitude is `float(b.strip())`, and the pieces of `tail` are ignored; a latitude that fails leaves both `None`; a longitude that fails leaves the latitude set |
| Coordinates.CleanedSinglePiece | backend/app/services/nps_fetcher.py:31 | `"lat:" + a`, with no comma or colon in `a`, cleans and splits to the single piece `a` |
| Coordinates.LatitudeOnly | backend/app/services/nps_fetcher.py:28-35 | `"lat:" + a`, where `a` contains no comma and no colon, keeps the parsed latitude and gives longitude `None` |
| Coordinates.AcadiaExample | backend/app/services/nps_fetcher.py:28-35 | `"lat:44.35, long:-68.21"` parses to latitude 44.35 and longitude -68.21, given `float()` on those two texts |
| NpsFetcher.Required | backend/app/models.py:7-8 | a required column holds its value, or the store refuses `None` with a NOT NULL violation naming the column |
| NpsFetcher.NormalizePark | backend/app/services/nps_fetcher.py:23-47 | a park row is produced exactly when the record is a dict, its `latLong` does not raise, and `parkCode` and `fullName` are present; the row holds those fields, `states`, `description`, `url` and the parsed coordinates, so a coordinate parse failure never costs the record; a record that is not a dict raises `AttributeError`; a `latLong` that raises gives `TypeError` at once; otherwise a missing key or name is the held-back NOT NULL violation on `park_id` or `name`, in that order |
| NpsFetcher.ParkWithoutLabel | backend/app/services/nps_fetcher.py:25-29 | a `latLong` that is absent, null, empty or without `"lat:"` gives neither latitude nor longitude |
| NpsFetcher.ParksAllStored | backend/app/services/nps_fetcher.py:23-48 | when every record is a dict with text key and name and a text, null or absent `latLong`, the run commits one row per record, and every record's key is in the table, however its coordinates parse |
| NpsFetcher.NullNameThenBadLatLong | backend/app/services/nps_fetcher.py:23-48 | a park without `fullName` followed by a park whose `latLong` is a number ends with the second record's `TypeError`, not the first record's NOT NULL violation, which has not yet been flushed |
| NpsFetcher.ToInt | backend/app/services/nps_fetcher.py:63 | `int()` on a JSON value: integers as they are; booleans as 0 or 1; strings through the parser, else `ValueError`; null, lists and dicts raise `TypeError` |
| NpsFetcher.SiteCount | backend/app/services/nps_fetcher.py:63 | the count is 0 when `totalSites` is absent; otherwise it is `int(totalSites)`; a `campsites` value that is not a dict raises `AttributeError` |
| NpsFetcher.NormalizeCampground | backend/app/services/nps_fetcher.py:56-66 | a campground row is produced exactly when the record is a dict, its site count converts, and `id`, `parkCode` and `name` are present; the row holds those, the count and `reservationUrl`; a record that is not a dict raises `AttributeError`; a failing count is the record's exception; otherwise a missing `id`, `parkCode` or `name` is the held-back NOT NULL violation on `campground_id`, `park_id` or `name`, in that order |
| NpsFetcher.CampgroundBatch | backend/app/services/nps_fetcher.py:52-67 | the campground run: an envelope that raises ends it with that exception; it succeeds exactly when every record yields a campground row, and then holds those rows in order |
| NpsFetcher.SiteCountDefaultsToZero | backend/app/services/nps_fetcher.py:63 | a record without `campsites`, or without `campsites.totalSites`, is stored with 0 sites, which differs from the schema default `None` |
| NpsFetcher.BadSiteCountAbortsRun | backend/app/services/nps_fetcher.py:57-67 | one `totalSites` text that `int()` rejects fails the whole run and leaves the campground table unchanged |
| NpsFetcher.NormalizeAlert | backend/app/services/nps_fetcher.py:75-86 | an alert row is produced exactly when the record is a dict with `id`, `parkCode` and `title`; `category`, `description` and `dateCreated` are copied as they are; a record that is not a dict raises `AttributeError`; otherwise a missing `id`, `parkCode` or `title` is the held-back NOT NULL violation on `alert_id`, `park_id` or `title`, in that order |
| NpsFetcher.AlertBatch | backend/app/services/nps_fetcher.py:71-87 | the alert run: an envelope that raises ends it with that exception; it succeeds exactly when every record yields an alert row, and then holds those rows in order |
| NpsFetcher.NoDataChangesNothing | backend/app/services/nps_fetcher.py:19-20 | an envelope without `"data"` leaves all three tables unchanged |
| NpsFetcher.MergeBatch | backend/app/services/nps_fetcher.py:22-48 | the merge loop, holding back a refused row until the next merge or the commit: when the run succeeds it gives the batch folded into the table, otherwise exactly the run's exception |
| NpsFetcher.Store.UpsertParks | backend/app/services/nps_fetcher.py:18-48 | the park table becomes the reconciled table of the run; the outcome is commit or the run's exception; keys stay unique; the other tables do not change |
| NpsFetcher.Store.UpsertCampgrounds | backend/app/services/nps_fetcher.py:52-67 | the same for campgrounds; the park table is neither read nor changed, so a campground may name a park that is not stored |
| NpsFetcher.Store.UpsertAlerts | backend/app/services/nps_fetcher.py:71-87 | the same for alerts |
| StateSearch.RemoveSpaces | frontend/app.py:141 | `replace(" ", "")` leaves no space and keeps the count of every other character |
| StateSearch.Token | frontend/app.py:141 | a stripped, upper-cased piece without spaces or commas is a token: upper case, with no whitespace at either end |
| StateSearch.StateTokens | frontend/app.py:141 | there is one token per comma-separated piece, which is the number of commas plus one, with empty pieces kept; no token holds a space or a comma; each is upper case with no whitespace at either end |
| StateSearch.TokenFixed | frontend/app.py:141 | a token is left unchanged by stripping and upper-casing |
| StateSearch.TokensOfJoin | frontend/app.py:141 | comma-joined tokens cut back into the same tokens, in order |
| StateSearch.TokensIdempotent | frontend/app.py:141 | normalising the comma-join of the tokens gives the same tokens again |
| StateSearch.TokensRejoin | frontend/app.py:141 | when spaces are the only whitespace, the tokens joined with commas are exactly the space-free, upper-cased query; so the tokens are its pieces, in input order |
| StateSearch.Contribution | frontend/app.py:151-158 | a response adds all its rows when its status is 200 and its body decodes, and nothing otherwise |
| StateSearch.NoticeOf | frontend/app.py:151-158 | a banner is shown exactly for a response that adds no rows by failing: "invalid JSON" for status 200, "server error" with the body text otherwise |
| StateSearch.Collected | frontend/app.py:143-158 | every collected row comes from the contribution of some token's response |
| StateSearch.Notices | frontend/app.py:143-158 | there is at most one banner per token, and each banner is that of some token's response |
| StateSearch.CollectedAppend | frontend/app.py:145-158 | the rows for two runs of tokens are the first run's rows followed by the second's |
| StateSearch.NoticesAppend | frontend/app.py:145-158 | the banners for two runs of tokens are the first run's banners followed by the second's |
| StateSearch.CollectedEmptyIff | frontend/app.py:160-163 | the result list is empty exactly when no token's response contributed a row |
| StateSearch.Accumulate | frontend/app.py:143-158 | the loop's result list is the in-order concatenation of every token's contribution, and its banners are every token's banner, in order |
| StateSearch.SearchByState | frontend/app.py:139-163 | an empty query does nothing; otherwise the table shows the concatenated rows when there are any, and the "no campgrounds" warning shows exactly when there are none |

## Left out

- `fetch` is not modelled: the HTTP request, the API key and the `.env` loading. The envelope it returns is an input of each `Upsert…` method.
- The `print` completion messages are not modelled.
- `float()` and `int()` on strings are not modelled. They are parameters: partial parsers from text to a value, with `None` for a string they reject. No IEEE arithmetic enters the model.
- JSON numbers with a fraction part are not in `Json`. So `int()` of a float `totalSites` is not covered, and neither is a float `latLong`.
- Non-text values in text columns are not modelled. A number or list in `fullName`, `states` and the like would reach the database driver, which decides at flush time. The record normalisers therefore require those fields to be text, null or absent (`TextFields`, `EnvelopeText`).
- When several required columns of one record are missing, the model reports the first in column order. The store may report another.
- Enforcement of the declared park references is not modelled. The database engine may or may not enforce it, so campgrounds and alerts may name parks that are not stored.
- A record whose primary key is missing is not excluded by a precondition. It fails the run with `NotNullViolation`, as the store refuses it.
- `backend/app/database.py` is not part of this model beyond "merge is a map update and commit publishes".
- `backend/app/main.py` is not part of this model. Its SQL-level route handlers depend on the database engine.
- `scripts/ingest_nps.py` is not part of this model. It only calls the three routines in the fixed order parks, campgrounds, alerts.
- The dashboard's UI is not modelled: Streamlit widgets, pandas DataFrames, charts and the other sections of `frontend/app.py`.
- A dashboard response whose JSON body is a dict or a string is not modelled. `list.extend` would add its keys or characters; the model's `Response` carries rows only as a list, or `None` when decoding or extending raises.
- `PyStr.Upper` upper-cases ASCII letters only. Python's Unicode case mapping, and characters whose upper case is longer, are left out.
- StateSearch.TokensRejoin requires that the query's only whitespace is the space character. With other whitespace, `strip` may remove characters inside the joined text, so that lemma's equation would not hold.
- NpsFetcher.CampgroundBatch, NpsFetcher.Store.UpsertCampgrounds: the range of the `total_sites` INTEGER column is not modelled. It depends on the database engine named by `DATABASE_URL`. `int()` accepts a count of any size, and the store may refuse one outside the column's range when the row is flushed, failing the run. The model's store accepts every integer, so such a run commits in the model.
- StateSearch.Accumulate, StateSearch.SearchByState: a `requests.get` that raises (a connection error or a timeout) is not modelled. The call at `frontend/app.py` line 146 is outside the `try`, so such an exception ends the section with neither the table nor the warning. In the model every request returns a response, so the loop always finishes and one of the two is always shown.
