# mind-track check-in core in Dafny

mind-track is a desktop journaling application. Each day the user records a
*daily check-in*: a mood level, an optional mood memo, physical-state tags
and a list of potential to-dos. This project models the core of that
application and proves properties of the model:

- **the daily check-in service** (`CheckinService`). It validates a check-in
  payload, stores the check-in as a row of the `daily_checkins` table
  (tags and to-dos as JSON lists of strings) and looks a check-in up by its
  date;
- **the application error type** (`AppErrors`). It covers the error variants, the
  conversions from database, UUID, date-parsing and JSON errors, and the
  serialized shape sent to the front end, which never carries internal details;
- **the two schema migrations and their ordered list** (`Schema`). They create
  `daily_checkins` and `micro_tasks`. The second table has a foreign key to
  the first, with cascading delete and update. Its revision is named
  `create_table_daily_micro_tasks`, but the table name comes from the
  `MicroTasks` identifier and is `micro_tasks`;
- **the two tables as seen by the service** (`Storage`). Its class `Store`
  enforces the unique id and date keys and the foreign key with its cascades;
- **the heading renumbering script** (`Numbering`). It rewrites the Markdown
  headings of the specification documents as `PREFIX-1`, `PREFIX-1.2`,
  `PREFIX-1.2.3` and removes any older numbering.

The supporting modules are:

- `Base`: Option and Result;
- `Text`: UTF-8 byte length, decimal digits, substrings;
- `Dates`: the strict `YYYY-MM-DD` date parser and printer;
- `JsonList`: the JSON encoding of a list of strings, with its decoder.

The stateful parts of the source become classes. Each class's methods are
proved equal to value-level functions, and the lemmas are stated about those
functions:

- `Storage.Store` holds the tables;
- `CheckinService.DailyCheckinService` owns a store;
- `Schema.SchemaManager` holds the catalog of tables;
- `Numbering.Counters` holds the three heading counters.

`CheckinService.ValidatePayload` (with its per-item loop
`CheckinService.AllWithinLimit`) and `Numbering.ProcessFile` are loops in the
source and are methods here.

Behaviour of the code as written, which the model follows:

- **Length limits count UTF-8 bytes.** The limits are 500 for the mood memo, 20 per
  tag and 100 per to-do, and they are checked with
  Rust's `String::len`, which counts bytes. A memo of 200 Japanese characters
  (600 bytes) is therefore refused.
- **`deleted_at` is set at insert.** A check-in is stored with `deleted_at`
  already set (`daily_checkin_service.rs:122`). The duplicate query and the
  lookup only see rows whose `deleted_at` is null, so:
  - a freshly recorded check-in is not found by `get_checkin_by_date`;
  - a second check-in for the same date passes the duplicate query. The
    unique `date` column then refuses it, and the caller gets a Database error
    instead of the duplicate-date Validation error.
  `CheckinService.RecordedCheckinIsNotFound` and
  `CheckinService.SecondRecordIsDatabaseError` state both facts.
- **The schema does not list every column the service writes.** The
  `daily_checkins` migration creates no `uuid`, `created_at`, `updated_at` or
  `deleted_at` column, but the service writes all four. The store's rows follow
  the service, and the catalog follows the migrations.

## Model

| member | source | states |
|---|---|---|
| Text.Utf8Len | src-tauri/src/services/daily_checkin_service.rs:159-167 | byte length of a string as Rust's `len` counts it: at least one and at most four bytes per character |
| Text.Utf8LenAscii | src-tauri/src/services/daily_checkin_service.rs:159-167 | ASCII text has exactly one byte per character, so for it the byte limits are character limits |
| Text.NatToString | update_numbering.py:99-109 | decimal spelling of a counter, as `str` gives it: the digits read as a decimal number give the counter back, and there is no leading zero except in `0` itself |
| Dates.ParseDate | src-tauri/src/services/daily_checkin_service.rs:78-79 | `%Y-%m-%d` parsing: every date it yields is a real calendar day with a year from 0 to 9999 |
| Dates.FormatDate | src-tauri/src/services/daily_checkin_service.rs:40 | `NaiveDate::to_string`: for years 0 to 9999 the text is ten characters with dashes at positions 4 and 7 |
| Dates.IsAfterStrictTotalOrder | src-tauri/src/services/daily_checkin_service.rs:213-214 | the `date > today` comparison is a strict total order on dates: irreflexive, asymmetric, transitive and total on distinct dates |
| Dates.FormatThenParse | src-tauri/src/services/daily_checkin_service.rs:40 | parsing the printed form of any valid date with a four-digit year gives that date back |
| Dates.ParseThenFormat | src-tauri/src/services/daily_checkin_service.rs:133-135 | a date text that parses is the canonical printed form of the date it parses to |
| Dates.LeapDaysExist | src-tauri/src/services/daily_checkin_service.rs:78-79 | the Gregorian leap-year rule at work: `2024-02-29` and `2000-02-29` parse to those dates |
| Dates.NonLeapDaysMissing | src-tauri/src/services/daily_checkin_service.rs:78-79 | `2025-02-29` and `1900-02-29` do not parse: 2025 is not a multiple of 4 and 1900 is a century not divisible by 400 |
| JsonList.EncodeList | src-tauri/src/services/daily_checkin_service.rs:98-108 | `serde_json::to_string` of a `Vec<String>`: the text starts with `[` and ends with `]` |
| JsonList.EncodeDecodeRoundTrip | src-tauri/src/services/daily_checkin_service.rs:98-108 | decoding the JSON text of any list of strings gives that list back |
| JsonList.EncodeListInjective | src-tauri/src/services/daily_checkin_service.rs:98-108 | two different tag or to-do lists are never stored as the same text |
| JsonList.DecodeRejectsNonArray | src-tauri/src/services/daily_checkin_service.rs:43-52 | a stored text that does not open with `[`, such as `null` or a number, is not a list of strings, so the response field becomes None |
| JsonList.DecodeRejectsNonStringElement | src-tauri/src/services/daily_checkin_service.rs:43-52 | a stored array whose first element is not a string, such as `[1]`, is not a list of strings, so the response field becomes None |
| AppErrors.Serialize | src-tauri/src/error.rs:101-165 | serialized error: the message is the error's user message. `field` is present, holding the error's field, iff the error is a Validation error, `resource_type`/`resource_id` are present, holding the resource, iff it is NotFound, and the kind is never Network, Authentication or Permission |
| AppErrors.KindNamesVariant | src-tauri/src/error.rs:106-163 | each serialized kind is produced by exactly one family of variants (Database, Validation, Io, NotFound, IdGeneration, TimeUtils, ExternalService, Unexpected), in both directions |
| AppErrors.InternalsNeverCross | src-tauri/src/error.rs:88-98 | two errors that differ only in internal details, source errors or log messages serialize identically |
| AppErrors.SerializedKeysByVariant | src-tauri/src/error.rs:88-98 | the keys of the serialized object: `field` iff Validation, `resource_type` and `resource_id` iff NotFound, never a details or source key |
| AppErrors.FromDbErr | src-tauri/src/error.rs:174-182 | a database error reaches the front end only as the Database kind with the fixed database user message, and is kept as the error's source |
| AppErrors.FromUuidError | src-tauri/src/error.rs:185-193 | a UUID error reaches the front end only as the IdGeneration kind with the fixed ID user message, and is kept as the source |
| AppErrors.FromChronoError | src-tauri/src/error.rs:196-204 | a date-parse error reaches the front end only as the TimeUtils kind with the fixed date user message, and is kept as the source |
| AppErrors.FromJsonError | src-tauri/src/error.rs:207-215 | a JSON error reaches the front end only as the Unexpected kind with the fixed data-processing user message, and is kept as the source |
| AppErrors.NewValidation | src-tauri/src/error.rs:220-226 | a Validation error keeps its field and message. A given user message is used, and without one the default validation message is |
| AppErrors.NewNotFound | src-tauri/src/error.rs:228-235 | a NotFound error keeps resource type, id and details. A given user message is used, and without one the default message naming the resource type is |
| AppErrors.NewUnexpected | src-tauri/src/error.rs:237-243 | an Unexpected error keeps its details and records no source. A given user message is used, and without one the generic message is |
| Storage.LiveByDate | src-tauri/src/services/daily_checkin_service.rs:82-87 | the row found for a date is a stored row with that date and no `deleted_at`. None is returned iff no such row exists |
| Storage.EmptyTablesConsistent | src-tauri/migration/src/m20250604_064814_create_table_daily_checkins.rs:14-20 | the freshly created, empty tables satisfy the unique keys and the foreign key |
| Storage.CheckinInserted | src-tauri/migration/src/m20250604_064814_create_table_daily_checkins.rs:14-15 | an insert whose date is already taken is refused with a unique violation on `daily_checkins.date` and changes nothing. Otherwise the row is appended with the next id, and the id counter advances |
| Storage.InsertCheckinKeepsConsistent | src-tauri/migration/src/m20250604_064814_create_table_daily_checkins.rs:14-15 | an insert keeps ids and dates unique and every task reference resolving, and the new id was not in use |
| Storage.DuplicateDateRefused | src-tauri/migration/src/m20250604_064814_create_table_daily_checkins.rs:15 | once a row for a date is stored, a second insert for that date is a unique violation whatever its other columns hold, `deleted_at` included, and changes nothing |
| Storage.TaskInserted | src-tauri/migration/src/m20250604_065127_create_table_daily_micro_tasks.rs:14-38 | an insert succeeds iff its check-in id is null or names a stored check-in, and a refusal is a foreign-key violation that changes nothing. On success the stored task keeps the given description, memo, completion time, sort order and check-in id, `is_completed` defaults to 0 and `created_at` to the current time |
| Storage.InsertTaskKeepsConsistent | src-tauri/migration/src/m20250604_065127_create_table_daily_micro_tasks.rs:31-38 | inserting a task keeps the tables consistent |
| Storage.CheckinDeleted | src-tauri/migration/src/m20250604_065127_create_table_daily_micro_tasks.rs:36 | deleting a check-in removes exactly that row and, by cascade, exactly the tasks that reference it. All other rows stay |
| Storage.DeleteKeepsConsistent | src-tauri/migration/src/m20250604_065127_create_table_daily_micro_tasks.rs:31-38 | after a cascading delete, every remaining task still references a stored check-in |
| Storage.CheckinIdChanged | src-tauri/migration/src/m20250604_065127_create_table_daily_micro_tasks.rs:37 | changing the id of a check-in that does not exist matches no row and succeeds without change. The update is refused, with a unique violation on `daily_checkins.id` and no change, iff the check-in exists and the new id is a different one already in use. Otherwise the row is renumbered and, by cascade, every task that pointed to the old id points to the new one |
| Storage.RenumberKeepsConsistent | src-tauri/migration/src/m20250604_065127_create_table_daily_micro_tasks.rs:37 | renumbering a check-in keeps ids and dates unique and every reference resolving |
| Storage.Store.FindLiveByDate | src-tauri/src/services/daily_checkin_service.rs:82-87 | the scan over the stored rows returns what `LiveByDate` specifies |
| Storage.Store.InsertCheckin | src-tauri/src/services/daily_checkin_service.rs:127 | the insert returns and stores what `CheckinInserted` specifies and keeps the store consistent |
| Storage.Store.InsertMicroTask | src-tauri/migration/src/m20250604_065127_create_table_daily_micro_tasks.rs:14-38 | the insert returns and stores what `TaskInserted` specifies and keeps the store consistent |
| Storage.Store.DeleteCheckin | src-tauri/migration/src/m20250604_065127_create_table_daily_micro_tasks.rs:36 | the delete leaves the tables `CheckinDeleted` specifies and keeps the store consistent |
| Storage.Store.ChangeCheckinId | src-tauri/migration/src/m20250604_065127_create_table_daily_micro_tasks.rs:37 | the update returns and leaves what `CheckinIdChanged` specifies and keeps the store consistent |
| CheckinService.PayloadCheck | src-tauri/src/services/daily_checkin_service.rs:148-223 | a refusal is a Validation error naming one of the checked fields |
| CheckinService.PayloadCheckAcceptsExactly | src-tauri/src/services/daily_checkin_service.rs:148-223 | a payload is accepted iff the following all hold: the mood level is 1..5; the mood memo, when given, is at most 500 bytes; the tags, when given, number at most 10 of at most 20 bytes each; the to-dos, when given, number at most 3 of at most 100 bytes each; the date parses and is not after today |
| CheckinService.PayloadCheckReportsFirstBrokenRule | src-tauri/src/services/daily_checkin_service.rs:148-223 | the error reported is that of the first broken rule, in the order mood level, mood memo, tags, to-dos, date, and all earlier rules hold |
| CheckinService.MoodErrors | src-tauri/src/services/daily_checkin_service.rs:150-167 | a mood level outside 1..5 gives exactly the mood-level error, and a valid level with a mood memo over 500 bytes gives exactly the mood-memo error |
| CheckinService.TagCountCheckedBeforeLength | src-tauri/src/services/daily_checkin_service.rs:171-186 | once the mood rules hold, more than 10 tags gives exactly the tag-count error even when a tag is also too long, and at most 10 tags with one over 20 bytes gives exactly the tag-length error |
| CheckinService.TodoCountCheckedBeforeLength | src-tauri/src/services/daily_checkin_service.rs:191-206 | once the mood and tag rules hold, more than 3 to-dos gives exactly the to-do-count error, and at most 3 with one over 100 bytes gives exactly the to-do-length error |
| CheckinService.DateFormatCheckedBeforeFuture | src-tauri/src/services/daily_checkin_service.rs:210-220 | once every other rule holds, a date that does not parse gives exactly the date-format error, and a parsed date after today gives exactly the future-date error |
| CheckinService.PayloadRefusalIsValidation | src-tauri/src/services/daily_checkin_service.rs:150-220 | every refusal reaches the front end as the Validation kind with the offending field named |
| CheckinService.AcceptedDateParses | src-tauri/src/services/daily_checkin_service.rs:75-79 | after validation succeeds, parsing the date cannot fail, so the parse error at line 79 is unreachable |
| CheckinService.MoodTextLimitCountsBytes | src-tauri/src/services/daily_checkin_service.rs:159-167 | a memo of 200 Japanese characters (600 bytes) is refused although it has fewer than 500 characters |
| CheckinService.AllWithinLimit | src-tauri/src/services/daily_checkin_service.rs:178-183 | the per-item loop says yes exactly when every item is within the byte limit |
| CheckinService.ValidatePayload | src-tauri/src/services/daily_checkin_service.rs:148-223 | the loops over tags and to-dos return exactly what `PayloadCheck` specifies |
| CheckinService.StoredListRoundTrip | src-tauri/src/services/daily_checkin_service.rs:98-108 | tags and to-dos stored at insert read back as the same lists in the response |
| CheckinService.ToResponse | src-tauri/src/services/daily_checkin_service.rs:36-57 | the response carries the row's uuid and mood level. The mood memo is absent iff the stored memo is empty and is the stored memo otherwise, and an empty tag or to-do column reads as absent |
| CheckinService.NewRow | src-tauri/src/services/daily_checkin_service.rs:111-124 | the row to insert has the parsed date, creation and update times both equal to now, an empty physical-state memo, and `deleted_at` already set |
| CheckinService.Recorded | src-tauri/src/services/daily_checkin_service.rs:70-130 | recording a check-in: a validation failure is returned as it is, and on any error the tables are unchanged. Recording succeeds iff the payload is valid and no stored row holds its date |
| CheckinService.Lookup | src-tauri/src/services/daily_checkin_service.rs:133-145 | a lookup fails iff the date text does not parse, with the date-format Validation error. Otherwise it answers with the live row for that date or None |
| CheckinService.LookupFindsLiveRow | src-tauri/src/services/daily_checkin_service.rs:137-144 | when a live row for the parsed date exists, the lookup answers with that row's response, whose date text is the one asked for |
| CheckinService.LookupAnswerIsLiveRow | src-tauri/src/services/daily_checkin_service.rs:137-144 | conversely, every check-in the lookup answers is the response of a stored live row for the parsed date, and carries the date text asked for |
| CheckinService.LookupAbsent | src-tauri/src/services/daily_checkin_service.rs:137-144 | when no live row for the date exists, the lookup answers None |
| CheckinService.RecordRefusesLiveDuplicate | src-tauri/src/services/daily_checkin_service.rs:82-95 | a valid payload whose date already has a live row is refused with the duplicate Validation error and changes nothing |
| CheckinService.RecordStoresRow | src-tauri/src/services/daily_checkin_service.rs:111-127 | a valid payload for a date that no stored row holds is recorded: exactly the new row is appended, with the next id, and nothing else changes |
| CheckinService.RecordResponseEchoesPayload | src-tauri/src/services/daily_checkin_service.rs:111-129 | a successful record answers with the payload's date, mood level, memos, tags and to-dos |
| CheckinService.RecordedCheckinIsNotFound | src-tauri/src/services/daily_checkin_service.rs:122 | right after a successful record, looking up its date answers None |
| CheckinService.SecondRecordIsDatabaseError | src-tauri/src/services/daily_checkin_service.rs:82-127 | recording a valid payload a second time for the same date fails with a Database error (unique violation), not with the duplicate Validation error |
| CheckinService.RecordKeepsConsistent | src-tauri/src/services/daily_checkin_service.rs:70-130 | recording keeps the tables consistent |
| CheckinService.DailyCheckinService.RecordCheckin | src-tauri/src/services/daily_checkin_service.rs:70-130 | the method's result and new tables are those of `Recorded` |
| CheckinService.DailyCheckinService.GetCheckinByDate | src-tauri/src/services/daily_checkin_service.rs:133-145 | the method's result is that of `Lookup` on the current tables |
| Schema.CheckinTableConstraints | src-tauri/migration/src/m20250604_064814_create_table_daily_checkins.rs:14-20 | `daily_checkins` has seven columns and no foreign key: an auto-increment integer primary key `id`, a unique non-null `date` of date type, and five nullable columns |
| Schema.MicroTaskTableConstraints | src-tauri/migration/src/m20250604_065127_create_table_daily_micro_tasks.rs:14-29 | `micro_tasks` has eight columns: an auto-increment primary key, a nullable `daily_checkin_id`, a non-null `task_description`, nullable `task_memo`, `completed_at` and `sort_order`, `is_completed` non-null with default 0, and `created_at` non-null with the current timestamp as default |
| Schema.MicroTaskReference | src-tauri/migration/src/m20250604_065127_create_table_daily_micro_tasks.rs:31-38 | `micro_tasks` has exactly one foreign key, `fk_micro_tasks_daily_checkin_id`, from `daily_checkin_id` to `daily_checkins.id`, with cascade on delete and on update |
| Schema.Execute | src-tauri/migration/src/m20250604_064814_create_table_daily_checkins.rs:8-30 | creating a table adds it when absent. An existing table is kept when `IF NOT EXISTS` is given, and is an error otherwise. Dropping a table removes it when present, and dropping a missing one without `IF EXISTS` is an error |
| Schema.MigrationsInNameOrder | src-tauri/migration/src/lib.rs:10-15 | the migrations are listed in strictly increasing name order, which is the order they run |
| Schema.FreshUpCreatesSchema | src-tauri/migration/src/lib.rs:10-15 | running every migration up on an empty database succeeds and yields exactly the two tables |
| Schema.MigratedReferencesResolve | src-tauri/migration/src/m20250604_065127_create_table_daily_micro_tasks.rs:31-38 | in the migrated catalog, every foreign key names a table of the catalog and a primary-key column of that table |
| Schema.UpAgainChangesNothing | src-tauri/migration/src/m20250604_064814_create_table_daily_checkins.rs:13 | running the migrations up a second time succeeds and changes nothing |
| Schema.DownUndoesUp | src-tauri/migration/src/m20250604_064814_create_table_daily_checkins.rs:26-30 | running every migration down, in reverse order, after a fresh up returns the empty catalog |
| Schema.TableOf | src-tauri/migration/src/m20250604_065127_create_table_daily_micro_tasks.rs:8-48 | each migration creates and drops the same table |
| Schema.UpThenDownRestores | src-tauri/migration/src/m20250604_065127_create_table_daily_micro_tasks.rs:8-48 | on any catalog without its table, a migration's up succeeds and its down then restores exactly the catalog it started from |
| Schema.UpOnExistingTableKeeps | src-tauri/migration/src/m20250604_065127_create_table_daily_micro_tasks.rs:13 | on any catalog that already has its table, a migration's up succeeds and changes nothing |
| Schema.AllUpThenAllDownRestores | src-tauri/migration/src/lib.rs:10-15 | on any catalog without the two tables, running every migration up adds exactly the two tables, and running every migration down afterwards restores the catalog |
| Schema.DownOfMissingTableFails | src-tauri/migration/src/m20250604_065127_create_table_daily_micro_tasks.rs:44-48 | a down migration whose table is missing fails with a no-such-table error |
| Schema.SchemaManager.Run | src-tauri/migration/src/m20250604_064814_create_table_daily_checkins.rs:8-30 | executing a statement returns and leaves what `Execute` specifies |
| Schema.SchemaManager.Up | src-tauri/migration/src/m20250604_064814_create_table_daily_checkins.rs:8-24 | applying a migration's up statement returns and leaves what `Execute` specifies |
| Schema.SchemaManager.Down | src-tauri/migration/src/m20250604_064814_create_table_daily_checkins.rs:26-30 | applying a migration's down statement returns and leaves what `Execute` specifies. Its only failure is a missing table, which leaves the catalog unchanged |
| Numbering.FilePrefixesWellFormed | update_numbering.py:27-38 | every file prefix is two upper-case ASCII letters, which is the shape the old-number pattern strips, and different files have different prefixes |
| Numbering.ResetLower | update_numbering.py:48-54 | level 1 resets levels 2 and 3 to 1, level 2 resets level 3, a deeper level changes nothing, and the level-1 counter is never touched |
| Numbering.Advance | update_numbering.py:74-84 | a level-1 heading sets all three counters back to 1. A level-2 heading moves to the next level-2 number and resets level 3. A level-3 heading moves only to the next level-3 number |
| Numbering.HeadingNumberStartsWithPrefix | update_numbering.py:99-109 | every new heading number starts with the file's prefix and a dash |
| Numbering.MatchHeading | update_numbering.py:87-92 | a bold heading match gives one to six `#`, a line that starts with them, and a non-empty heading text without line breaks |
| Numbering.OldNumberingRemoved | update_numbering.py:94-97 | an old number such as `DC-1.1. ` or `3.1. ` before the heading text is removed with the blank after it, leaving exactly the text |
| Numbering.UnnumberedTextKept | update_numbering.py:97 | the plain-number substitution leaves a text that does not start with a digit unchanged |
| Numbering.PlainNumberStripped | update_numbering.py:97 | for any dotted number such as `3.1.`, followed by a blank and a text that does not start with a blank, the plain-number substitution leaves exactly the text |
| Numbering.PrefixedNumberStripped | update_numbering.py:96 | for any two-capital code, a dash, a dotted number and a blank before a text that does not start with a blank, the prefixed-number substitution leaves exactly the text |
| Numbering.HeadingStep | update_numbering.py:56-114 | a line that is not a heading, or is already numbered, stays unchanged. The counters move whenever the line opens a bold heading, even when no full heading matches, and such a line is kept. A matched heading becomes the `#` marks, the new number for its level and the text with old numbering removed |
| Numbering.NewHeadingIsNumbered | update_numbering.py:111-114 | a rewritten heading counts as already numbered, so the script leaves it alone on a later run |
| Numbering.LineStepSettles | update_numbering.py:56-114 | every line the script writes is settled: running the script over it again leaves it unchanged |
| Numbering.Rewrite | update_numbering.py:116-134 | the rewritten file has as many lines as the input |
| Numbering.RewriteSettles | update_numbering.py:116-134 | every line of the rewritten file is one a later pass leaves alone: it does not open a bold heading, already carries the prefix, has no heading level, or does not match the heading pattern |
| Numbering.SettledLinesKept | update_numbering.py:116-134 | a file whose lines are all settled passes through a run unchanged |
| Numbering.RewriteIdempotent | update_numbering.py:116-146 | renumbering a file that was already renumbered changes nothing, so the second run reports no modification |
| Numbering.CountersTrackHeadings | update_numbering.py:74-84 | after a run of lines, each counter equals the number of headings of its level since the last heading of a higher level |
| Numbering.SecondLevelNumberIsOrdinal | update_numbering.py:78-81 | a level-2 heading's number is its ordinal among the level-2 headings since the last level-1 heading |
| Numbering.ThirdLevelNumberIsOrdinal | update_numbering.py:82-84 | a level-3 heading's number is its ordinal among the level-3 headings since the last higher heading |
| Numbering.FirstLevelNumber | update_numbering.py:100-102 | a level-1 heading is always numbered `PREFIX-1` |
| Numbering.Counters.ResetLowerCounters | update_numbering.py:48-54 | the counters become those `ResetLower` specifies |
| Numbering.Counters.UpdateHeading | update_numbering.py:56-114 | the returned line and new counters are those of `HeadingStep` on the old counters |
| Numbering.ProcessLine | update_numbering.py:128-134 | one loop step: a line that opens a bold heading is rewritten by `update_heading`, any other line is kept with the counters unchanged, exactly as `LineStep` specifies |
| Numbering.ProcessFile | update_numbering.py:116-146 | the loop yields the rewritten file, and reports a modification iff the output differs from the input |

## Left out

- Dates.ParseDate: accepts only the zero-padded ten-character `YYYY-MM-DD` form with a four-digit year. chrono's `%Y-%m-%d` also accepts years of one to three digits, unpadded months and days, and years with an explicit sign, which may be longer than four digits; all of these are refused here.
- Dates.FormatDate: its length and dash positions are stated only for years 0 to 9999, the only years `ParseDate` produces.
- CheckinService.ToResponse: requires a valid date, which every `NaiveDate` is. `created_at` and `updated_at` stay integer timestamps, because their RFC 3339 text formatting is not modelled.
- Numbering.MatchHeading: `\s` is modelled as under `re.ASCII`, the six characters space, tab, line feed, carriage return, vertical tab and form feed. Python's default `\s` on a `str` also matches the controls U+001C to U+001F, U+0085, U+00A0 and other Unicode spaces such as U+3000; these are not modelled.
- Numbering.LongestNumber: `\d` is modelled as the ASCII digits 0-9. Python also accepts other Unicode decimal digits.
- Numbering.ProcessFile: takes the file's lines and returns the new lines and the modification flag. The model covers none of the following: reading and writing files, the try/except that turns an I/O failure into "not modified", `main`'s loop over the file map, and its progress output.
- Clock, UUID generation and "today": `Utc::now()`, `Uuid::new_v4()` and `Utc::now().date_naive()` become parameters of `Recorded`, `ValidatePayload` and `PayloadCheck`.
- Database failures other than constraint violations are not modelled: connection loss, locking, and I/O errors on the queries at `daily_checkin_service.rs:87` and `:142`. For this reason `Lookup` never fails for a date that parses.
- Failures of `serde_json::to_string` on a `Vec<String>` cannot happen and are not modelled, so the error branches at `daily_checkin_service.rs:101` and `:107` are absent.
- The `Display` texts of `AppError` (its log messages) are not modelled. Only the serialized form sent to the front end is.
- The entity definition for `daily_checkins` (the sea-orm model file) is not part of this model. The row shape follows the service's use of it.
- The migrator's own bookkeeping table (`seaql_migrations`) and its status, fresh and refresh commands are not modelled. Only the up and down statements of each migration, run in list order, are.
- Column types are recorded by name only. SQLite type affinity and the storage of booleans as integers are not modelled beyond the `is_completed` default of 0.
- Concurrent requests are not modelled: two simultaneous records for one date race between the duplicate query and the insert. Each operation here is atomic.
- Mood level is an unbounded integer, not `i32`. The range check 1..5 makes the width irrelevant.
