# Incremental profile extractor — a Dafny model

This project models the core of a change-data-capture extractor for customer
profiles (`extract_and_transform.py`). The extractor keeps a persisted
watermark, the creation timestamp of the last profile it processed. Each
poll runs a range query for profiles created strictly after the watermark,
ordered by creation timestamp. Each profile is turned into a nested JSON-style
document. After every profile the watermark is moved to that profile's
timestamp and written back at once. When a poll's profiles are all done, the
batch of documents is appended to an output sink and cleared. An empty poll
changes nothing.

Layout, one module per component:

- `wrappers.dfy` — `Option` (SQL NULL / Python `None`) and `Result`.
- `timestamps.dfy` — calendar dates and timestamps (valid Python `date` /
  `datetime` values as subset types), their chronological order, SQL's
  NULL-aware `>`, and the renderings `isoformat()` and `strftime("%m-%d")`,
  each with a parser or digit-level reading that takes it back.
- `source_store.dfy` — the five tables as a sequence of store entries (a
  customer plus optional retail, marketing, loyalty and system rows), the
  inner join, the WHERE clause and `ORDER BY` as a stable insertion sort.
  `FetchNewProfiles` is `fetch_new_profiles`.
- `documents.dfy` — the output document as nested datatypes and `Transform`,
  which is `transform_to_json`.
- `extraction.dfy` — the watermark table (`WatermarkStore`), the sink
  (`ProfileSink`), the running extractor (`Exporter`, with the `PollOnce`
  loop step), and the pure state machine `Poll` / `Run` that specifies it.

Behaviour of the code that is easy to misread:

- Fetched rows come in non-decreasing timestamp order. The query orders by
  creation date only, so two rows may share a timestamp, and SQL fixes no
  order between them.
- Loading the watermark from an empty table fails: `fetchone()` returns
  `None` and indexing it raises. The model calls this failure
  `NotInitialized`.
- `consent` and `profile_creation_date` are nullable columns. A NULL consent
  gives `"n"`. A row with a NULL creation date is never fetched, because
  `NULL > t` is never true. A NULL watermark makes every fetch empty.
- `fullName` is built with no check for a missing part: an f-string renders
  a missing first or last name as the text `None`.
- Nothing in the loop catches an exception or retries: any failure ends
  `export_profiles`.

## Model

| member | source | states |
|---|---|---|
| `Timestamps.BeforeIsStrictTotalOrder` | extract_and_transform.py:116 | the order used by `ORDER BY` and `>` is irreflexive, asymmetric, transitive and total on timestamps |
| `Timestamps.MinDateTimeIsLeast` | generate_tables.py:87-89 | the seed value `datetime.min` is not after any valid timestamp |
| `Timestamps.ZeroPaddedRoundTrip` | extract_and_transform.py:83 | a zero-padded fixed-width decimal rendering reads back as the number it renders |
| `Timestamps.MonthDayRoundTrip` | extract_and_transform.py:83 | `strftime("%m-%d")` is five characters, a dash in the middle, two digits reading back as the month and two as the day |
| `Timestamps.IsoFormatDateRoundTrip` | extract_and_transform.py:61 | `date.isoformat()` parses back to the same date |
| `Timestamps.IsoFormatShape` | extract_and_transform.py:36 | `datetime.isoformat()` starts with the date's ISO text (which parses back to the date), then `T` and `HH:MM:SS` whose digit pairs read back as hour, minute and second; it is 19 characters, or 26 when the microsecond is non-zero, and then `.ffffff` reads back as the microsecond |
| `SourceStore.Joined` | extract_and_transform.py:110-114 | an entry yields a joined row exactly when all five parts exist, carrying the customer, the retail, marketing and loyalty rows, and the creation date |
| `SourceStore.Selected` | extract_and_transform.py:115 | every selected row has a creation date strictly after the threshold, and no more rows come out than entries went in |
| `SourceStore.SelectedMembership` | extract_and_transform.py:110-115 | every matching entry's joined row is selected, and every selected row comes from a matching entry |
| `SourceStore.Insert` | extract_and_transform.py:116 | inserting into a sorted sequence keeps it sorted and adds exactly that row |
| `SourceStore.SortByCreation` | extract_and_transform.py:116 | the result is non-decreasing by creation date and a permutation of the input |
| `SourceStore.FetchNewProfilesSpec` | extract_and_transform.py:98-121 | the fetch returns exactly the matching entries' rows (as a multiset), each dated strictly after the threshold, in non-decreasing creation order |
| `SourceStore.NullThresholdFetchesNothing` | extract_and_transform.py:115 | with a NULL threshold the fetch is empty |
| `SourceStore.NothingAfterLatest` | extract_and_transform.py:115 | if no matching row is later than `latest` and the threshold is not later than `latest`, a fetch from `latest` is empty |
| `Documents.ConsentMapping` | extract_and_transform.py:66 | the consent flag is `"y"` exactly when consent is a present `true`, and `"n"` for `false` or NULL |
| `Documents.BirthFields` | extract_and_transform.py:45-84 | `age`, `birthYear` and `birthDayAndMonth` are absent exactly when the date of birth is; when present, age is current year minus birth year, `birthYear` is the birth year, and `birthDayAndMonth` reads back as month and day |
| `Documents.NullDateOfBirthPropagation` | extract_and_transform.py:35-96 | clearing the date of birth clears exactly the three birth-derived fields and leaves every other field of the document unchanged |
| `Documents.FullName` | extract_and_transform.py:85-89 | `fullName` is first name, one space, last name, with a missing part rendered as `None`; with both present it splits back into them |
| `Documents.DuplicatedFields` | extract_and_transform.py:37-95 | customer id, e-mail, loyalty number and mobile phone each appear in both of their places; `testProfile` is always true |
| `Documents.IsoDates` | extract_and_transform.py:36-61 | `createDate` and `joinDate` are present exactly when their columns are, and their date parts parse back to the column's date |
| `Documents.TransformAll` | extract_and_transform.py:134-137 | the documents of a fetch keep its length and order, each the transform of the row at the same position with that row's customer id |
| `Extraction.WatermarkStore.Seed` | generate_tables.py:87-89 | an empty watermark table gets one row holding `datetime.min`; a non-empty one is left alone |
| `Extraction.WatermarkStore.Load` | extract_and_transform.py:21-26 | fails with `NotInitialized` exactly when the table has no row; otherwise returns the first row's value |
| `Extraction.WatermarkStore.Update` | extract_and_transform.py:28-32 | every row of the table now holds the given value; the number of rows is unchanged |
| `Extraction.ProfileSink.Append` | extract_and_transform.py:147-157 | the sink gains exactly one batch at its end, holding the documents in order |
| `Extraction.Provisioned` | generate_tables.py:87-89 | the start state after provisioning: watermark and cursor at `datetime.min`, empty batch |
| `Extraction.IdlePollIsNoOp` | extract_and_transform.py:130-132 | a poll that fetches nothing leaves watermark, cursor, batch and sink unchanged |
| `Extraction.FetchedNotAfterLast` | extract_and_transform.py:116 | no fetched row was created later than the last fetched row |
| `Extraction.PollAdvancesWatermark` | extract_and_transform.py:134-140 | the watermark never goes back; after a non-empty poll the cursor and every persisted row equal the last fetched row's creation date, strictly later than before |
| `Extraction.PollKeepsConsistent` | extract_and_transform.py:139-143 | a poll keeps the cursor equal to the persisted watermark and the batch empty |
| `Extraction.PollFlushesOneBatch` | extract_and_transform.py:134-143 | a non-empty poll appends exactly one batch, as long as the fetch and in fetch order, keeps earlier batches, and leaves the batch empty |
| `Extraction.RepeatedPollIsIdle` | extract_and_transform.py:115-140 | a second poll over an unchanged store fetches nothing and changes nothing, whatever year the clock shows |
| `Extraction.RunAdvancesWatermark` | extract_and_transform.py:127-145 | over any sequence of polls, with the store changing arbitrarily in between, the watermark never regresses |
| `Extraction.RowAtOrBelowWatermarkNeverFetched` | extract_and_transform.py:115-140 | a row created no later than the current watermark is fetched by no later poll |
| `Extraction.FetchedAtOrBelowNewWatermark` | extract_and_transform.py:134-140 | every row a poll fetched is at or below the watermark that poll leaves |
| `Extraction.NeverFetchedTwice` | extract_and_transform.py:127-145 | no row is fetched by two different polls of a run |
| `Extraction.TwoProfileFetch` | extract_and_transform.py:98-121 | from the seed watermark, two complete profiles created at `t1 < t2` are fetched in creation order, whatever their order in the store |
| `Extraction.TwoProfileScenario` | extract_and_transform.py:123-145 | from the seed, the first poll leaves the watermark at `t2` and appends one batch `[doc(t1), doc(t2)]`; a second poll changes nothing |
| `Extraction.Exporter.Init` | extract_and_transform.py:124-125 | the exporter starts with the loaded cursor, equal to the persisted watermark, and an empty batch |
| `Extraction.Exporter.ProcessFetched` | extract_and_transform.py:134-140 | its ensures: the batch gains the transformed rows in order, and at the end the cursor is the last row's creation date and every persisted row equals it; its loop invariants, which Dafny verifies, keep the cursor and every persisted row at the latest processed row's date after each row |
| `Extraction.Exporter.PollOnce` | extract_and_transform.py:127-143 | returns the fetch from the old cursor, and the new watermark, cursor, batch and sink are exactly `Poll` of the old ones |
| `Extraction.Exporter.PollRepeatedly` | extract_and_transform.py:127-145 | after one `PollOnce` per tick the state is `Run` of the old state over the ticks |
| `Extraction.ProvisionAndStart` | generate_tables.py:87-89 | seeding an empty watermark table and starting the extractor on it succeeds and yields exactly the state `Provisioned` that the scenario lemmas start from |
| `Extraction.StartExport` | extract_and_transform.py:123-125 | fails with `NotInitialized` exactly when the watermark table is empty; otherwise a new exporter whose cursor is the first watermark row and whose batch is empty |

## Left out

- `connect_postgres` and all psycopg2 cursors, SQL execution and commits: database I/O. The store is a sequence of entries passed to each poll, and the watermark table is the `rows` field of `WatermarkStore`.
- Connectivity or query failures and the exceptions they raise: the code does not catch them, so they only end the process. No error state is modelled beyond `NotInitialized`.
- Child tables holding more than one row for the same customer: each store entry has at most one row per child table, as `generate_profiles.py` inserts, so the join never multiplies rows.
- The order among rows with equal creation timestamps: SQL leaves it unspecified. The model keeps store order. `FetchNewProfilesSpec` and the lemmas built on it state only what any tie order satisfies.
- `SELECT ... LIMIT 1` with no `ORDER BY` may return any row: the model takes the first.
- The on-disk format of `save_profiles_to_json`: path handling, `open(..., 'a')`, `json.dump` and the `",\n"` separator are file I/O and a library serialiser. The `print` is console output. The sink is a sequence of batches.
- `time.sleep(1)` and the unbounded `while True`: timing and non-termination. `PollRepeatedly` runs one poll per element of a finite tick sequence.
- `datetime.now()`: the current year is a parameter, one per poll. The code reads the clock once per row, so a poll that spans New Year could give rows different years; the model gives them all the same year.
- Dates outside Python's range (years before 1 or after 9999), which PostgreSQL accepts but a Python `date` cannot hold.
- Time zones: timestamps are naive, as the `TIMESTAMP` columns are.
- `generate_profiles.py` in full: random synthetic data, insert SQL and its sleep loop.
- The table definitions in `generate_tables.py`: schema provisioning. Only its seeding of the watermark with `datetime.min` is modelled, by `WatermarkStore.Seed` and `Provisioned`.
- Several extractors running at once, and records committed out of timestamp order by more than one producer: the code assumes one extractor and one producer. `RowAtOrBelowWatermarkNeverFetched` shows that a row becoming visible only after the watermark has passed its timestamp is never exported.
