# Monitoring and extraction services, modelled in Dafny

This project models the deterministic core of a set of small services. The services collect laboratory
test results, track the collector runs, and report on what was received:

- **The manager's tracking store.** Three tables record sessions (`status`), their log lines (`log`) and
  the files they uploaded (`file`). The store's request shapes and the outcomes its tests expect are
  modelled, including "Session ID not found", the 422 for a bad level and the refusal of `.exe` uploads.
- **The session id** the manager's `GET /log` route builds from the app name, the clock and a random draw.
- **The collector's manager client.** A `JSONFormatter` and an `APILogHandler` ship every log record to
  the manager. A `ManagerInterface` asks the manager for a session, attaches a handler for it to the app's
  named logger, uploads files and closes the session.
- **The daily upload summary.** The notifier takes the uploads since the last Friday and builds a
  project × lab grid that starts red and turns green per uploaded file. It then lays the grid out as the
  Slack blocks of the report.
- **The Sabin results.** Each record's dates are rewritten as `dd/mm/YYYY`, and the records are saved as
  one JSON file per attendance date.
- **The lab-attachment downloader.** It searches each lab's addresses since the day before its last run,
  collects the named attachments, and saves each one as `{lab}_{YYYY-MM-DD}__{filename}`, dated by the
  message's `Date` header (section 3.3 of RFC 5322).
- **The matrix listing** of the storage bucket's `arbo` and `respat` report folders.
- **The Gmail extractor's health check:** three checks, every one reported, and an exit code of 0 exactly
  when all of them pass.
- **The InfoDengue extractor.** Its state, name and region tables are shown to agree. Its request URL is
  composed, and its six columns are selected.

Time, randomness, the environment, the network, Gmail and the storage listing are parameters of the
model. Printed lines are returned as values. Files written are a map or a log of writes.

Modules (one file each): `Common` (Option, Result), `Text` (Python string operations used by the
services), `Calendar` (`datetime` dates, the `strftime`/`strptime` layouts used, day steps),
`SessionIds`, `TrackingStore`, `ApiLogging`, `ManagerClient`, `Notifier`, `Sabin`, `EmailDownload`,
`Matrices`, `Healthcheck`, `Infodengue`.

Where the code is imperative it is modelled with Dafny methods, classes and loops proved against
specification functions:

- `TrackingStore.Store` and `ManagerClient.Process`/`ManagerInterface` are classes whose fields the
  methods update.
- `EmailDownload.Downloader` holds the downloader's file-system state.
- The loops of `create_summary`, `format_sabin_data_json`, `gmail_env_variables_are_set`, `healthcheck`
  and `download_attachments_from_lab` are `while` loops with invariants.

Two methods replay concrete sequences, with `assert`s on each step and no contract of their own.
`TrackingStore.StatusScenario` follows manager/tests/test_Status.py:21-53: a session opened, then
closed as COMPLETED, reads back with its end and its start, and an unknown id is refused.
`ManagerClient.SharedLoggerScenario` follows monit-collector/app/log.py:53 and :72: two interfaces for
one app share its named logger, so one log call then posts the record under both sessions.

## Model

| member | source | states |
|---|---|---|
| TrackingStore.ValidateLog | manager/app/models.py:65-71 | A log body is accepted exactly when session id, app name, message and level are all present and the level is INFO, WARNING, ERROR or CRITICAL. An accepted body keeps the fields as sent. Every refusal is unprocessable (422). |
| TrackingStore.ValidateStatus | manager/app/models.py:86-90 | A status update is accepted exactly when session id and status are present. `start` and `end` stay as given, absent when omitted. A refusal is unprocessable. |
| TrackingStore.OpenStep | manager/app/models.py:22-29 | Opening succeeds exactly when the id is not yet a key (primary key). The new session has status STARTED, no end, and the given start or else the module-load instant. A refused open changes nothing, and the tables stay well formed. |
| TrackingStore.AppendLogStep | manager/app/models.py:32-40 | Appending a log keeps the tables well formed: one session per key, ids 1, 2, 3, ... in insertion order, every log and file row naming an existing session. |
| TrackingStore.UpdateStatusStep | manager/app/models.py:76-90 | Updating a status keeps the tables well formed. |
| TrackingStore.UploadFileStep | manager/app/models.py:43-51 | Recording an upload keeps the tables well formed. |
| TrackingStore.AppendLogOutcome | manager/tests/test_Log.py:38-69 | A log is stored exactly when its body is valid and its session exists. A bad level gives a 422, an unknown session a 404 "Session ID not found". A refused log changes no table. A stored row echoes the body, is appended after every row, and has an id no earlier row has. |
| TrackingStore.AppendLogKeepsOrder | manager/app/models.py:32-40 | A stored log lands at the end of its own session's logs, so each session's logs read back in append order. |
| TrackingStore.DefaultTimestampIsShared | manager/app/models.py:40 | Two logs stored without a timestamp both carry the instant captured at module load, not their insertion times. |
| TrackingStore.UpdateStatusOutcome | manager/tests/test_Status.py:22-53 | An update succeeds exactly for a complete body naming an existing session. It returns the session with the new status and overwrites `start`/`end` only when given. An unknown id gives "Session ID not found". No other row changes. |
| TrackingStore.EmptyStatusBodyRejected | manager/tests/test_Status.py:55-57 | An empty status body is unprocessable. |
| TrackingStore.UploadFileOutcome | manager/tests/test_File.py:25-95 | An upload is recorded exactly when session id, organization, project and file are all given, the session exists and the name is not forbidden. The failures are checked in this order: a missing field is an unprocessable-request error (422); an unknown session is "Session ID not found" (404, test_File.py:57-69); a `.exe` name is "Invalid file format" (400, test_File.py:71-83). A refusal changes no table. The recorded row echoes session, organization, project and name, and has a new id. |
| TrackingStore.ExeUploadRejected | manager/tests/test_File.py:71-83 | `testfile.exe` uploaded to an existing session fails with "Invalid file format". |
| TrackingStore.TypeKeyPayloadUnprocessable | manager/tests/test_Log.py:26-35 | The test's payload, which carries its level under `"type"`, has no `level` and is unprocessable under `LogModel`, whatever the session. |
| TrackingStore.Store.constructor | manager/app/models.py:22-51 | The store starts with empty tables, well formed, holding its load instant. |
| TrackingStore.Store.Open | manager/app/models.py:22-29 | Result and new tables are those of `OpenStep`; well-formedness is kept. |
| TrackingStore.Store.AppendLog | manager/app/models.py:32-40 | Result and new tables are those of `AppendLogStep`; well-formedness is kept. |
| TrackingStore.Store.UpdateStatus | manager/app/models.py:86-90 | Result and new tables are those of `UpdateStatusStep`; well-formedness is kept. |
| TrackingStore.Store.UploadFile | manager/app/models.py:92-98 | Result and new tables are those of `UploadFileStep`; well-formedness is kept. |
| SessionIds.Suffix | manager/app/main.py:14 | For a draw from 0 to 1000000, `:07d` is exactly 7 digits and reads back as the draw. |
| SessionIds.SessionIdLayout | manager/app/main.py:14 | The id is the app name, '-', 14 digits, '-', then 7 digits, so it is 23 characters longer than the app name. The last 7 read back as the draw, and dropping the last 23 gives back the app name even if it contains '-'. |
| SessionIds.MonthRepeated | manager/app/main.py:14 | Characters 11-12 of the stamp repeat characters 5-6: the month appears where the minutes belong. |
| SessionIds.MinuteNotEncoded | manager/app/main.py:14 | Two clock readings that differ only in the minute give the same id. |
| SessionIds.MinuteCollision | manager/app/main.py:14 | Two sessions opened 40 minutes apart with the same draw get the same id. |
| SessionIds.IntendedStamp | manager/app/main.py:14 | With `%M` the stamp is 14 digits. |
| SessionIds.IntendedStampFields | manager/app/main.py:14 | Year, month, day, hour, minute and second read back from their slices of the intended stamp. |
| SessionIds.IntendedSessionIdInjective | manager/app/main.py:14 | With `%M`, ids of one app are equal only for the same second and the same draw. |
| ApiLogging.FormatTime | sivep-extractor/app/utils.py:8 | `formatTime` writes 23 characters: the `%Y-%m-%d` date, a space, the `%H:%M:%S` clock, a comma and 3 digits that read back as the milliseconds. |
| ApiLogging.EntryKeys | sivep-extractor/app/utils.py:7-26 | The formatted record has exactly the keys timestamp, level and message. The posted entry adds exactly `session_id` and `app_name`, the handler's own, and keeps the formatter's values. |
| ApiLogging.Emit | sivep-extractor/app/utils.py:21-32 | `emit` never fails. It delivers exactly when a response came back whose status is not a client or server error (4xx or 5xx), as `raise_for_status` decides; otherwise it prints `Failed to send log to API: ` and the exception's text: the call's own error, or `raise_for_status`'s `<status> Client Error: <reason> for url: <url>` (`Server Error` from 500). |
| ApiLogging.EntryAcceptedIffLevel | monit-collector/app/log.py:35-46 | The manager accepts a posted entry exactly when the record's level is one of its four. It then keeps the handler's session and app name and the record's level and message. |
| ApiLogging.DebugEntryRejected | monit-collector/app/log.py:7 | Of the standard levels, DEBUG, which the collector enables, is the only one the manager refuses. |
| ApiLogging.EntryStored | monit-collector/app/log.py:35-46 | Posting to a manager that knows the session appends exactly one row with the next id when the level is allowed, and otherwise changes no table. |
| ManagerClient.PostsPerHandler | monit-collector/app/log.py:72 | A record goes out once per handler on the logger, in handler order, each copy to that handler's endpoint and session. |
| ManagerClient.Process.constructor | monit-collector/app/log.py:53 | A fresh process has no handlers and has sent nothing. |
| ManagerClient.Process.Log | monit-collector/app/log.py:42-46 | Logging leaves the handlers as they were, sends one POST per handler in order, and gives each handler's `emit` outcome. |
| ManagerClient.Process.AddHandler | monit-collector/app/log.py:72 | The handler is appended after the logger's existing handlers, and nothing is sent. |
| ManagerClient.IsoFormat | monit-collector/app/log.py:100 | `isoformat()` is the date with a four-digit year, 'T', the clock, then '.' and six digits that read back as the microseconds, the last part only when those are not zero: 19 or 26 characters for every year. |
| Calendar.IsoFormatDate | monit-collector/app/log.py:100 | The date part of `isoformat()` is 10 characters whose year, month and day slices read back, the year zero-padded to four digits. |
| Calendar.IsoFormatDateIsIsoDate | monit-collector/app/log.py:100 | From year 1000 on, `isoformat()` writes the date as `strftime('%Y-%m-%d')` does; below it `strftime`'s text is shorter. |
| ManagerClient.FirstConfigureSendsOneRequest | monit-collector/app/log.py:57-72 | With no handler on the app's logger yet, configuring sends only the session-id request. |
| ManagerClient.ManagerInterface.constructor | monit-collector/app/log.py:50-54 | `session_id` starts as None, with the given app name and endpoint. |
| ManagerClient.ManagerInterface.RequestSession | monit-collector/app/log.py:58-64 | Configuring first logs the "configuring" record through the app's existing handlers, then sends the session-id request, then logs the error record only when that request raised or got a 4xx or 5xx status. That record carries the exception's text, `raise_for_status`'s `HTTPError` message for a status. The handlers are unchanged. |
| ManagerClient.ManagerInterface.Configure | monit-collector/app/log.py:57-72 | Configuring succeeds exactly when a response with a `session_id` came back, whatever its status, since the error is only logged. The id is then stored and a handler for it is appended to the app's logger. A raised call or a missing id fails and leaves id and handlers unchanged. All traffic is sent in order. |
| ManagerClient.ManagerInterface.UploadFile | monit-collector/app/log.py:74-92 | One POST with the current session, organization and project, whose status is ignored. Only a call that raises fails. |
| ManagerClient.ManagerInterface.CloseSession | monit-collector/app/log.py:94-102 | One PUT with the current session, the status (COMPLETED by default) and the `isoformat` end. It fails only when the call raises. |
| ManagerClient.Connect | monit-collector/app/log.py:50-55 | Constructing an interface succeeds exactly when the session request got a response with an id. The new interface holds that id, and exactly one handler is added to the app's logger. |
| ManagerClient.UploadStored | monit-collector/app/log.py:82-92 | An upload under a session the manager knows is stored, under that session, organization and project, exactly when the name is not `.exe`. |
| ManagerClient.CloseUpdatesSession | monit-collector/app/log.py:94-102 | Closing a known session sets its status and end and keeps its start. Without a session id the update is refused and nothing changes. |
| Notifier.Weekday | manager/app/notifier/notifier.py:22 | `strftime('%w')` is between 0 and 6. |
| Notifier.FridayOffset | manager/app/notifier/notifier.py:22 | `(w + 2) % 7` lies in 0..6 and is 0 exactly on a Friday. |
| Notifier.WindowStartIsLastFriday | manager/app/notifier/notifier.py:21-23 | The window starts on a Friday at most six days back, and no later day up to today is a Friday. It starts today exactly when today is a Friday. |
| Notifier.Select | manager/app/notifier/notifier.py:31-34 | A row is kept exactly when its organization is a monitored lab and it was uploaded on or after the window start. |
| Notifier.InitialGrid | manager/app/notifier/notifier.py:59-62 | One entry per project and lab, every one red with no files. |
| Notifier.FilesForAppend | manager/app/notifier/notifier.py:65-67 | The files of two batches of rows are the first batch's followed by the second's. |
| Notifier.FilesForNonEmpty | manager/app/notifier/notifier.py:65-67 | An entry lists some file exactly when some row has its project and lab. |
| Notifier.GreenIffFiles | manager/app/notifier/notifier.py:66-67 | An entry is green exactly when it lists some file. |
| Notifier.EntryForStep | manager/app/notifier/notifier.py:65-67 | One more row turns its own entry green and appends its name after the last `__`; every other entry is unchanged. |
| Notifier.FillSummary | manager/app/notifier/notifier.py:59-67 | The loop fails with the missing key exactly when some row's project or lab is not in the grid. Otherwise each entry is green exactly when some row has its project and lab, and it lists those rows' names after the last `__`, in row order. |
| Notifier.SelectedRowsFailOnlyOnProject | manager/app/notifier/notifier.py:31-66 | On the query's rows the loop fails exactly when some row's project is not `arbo` or `respat`, because the query filters the organization but not the project. |
| Notifier.ReportLength | manager/app/notifier/notifier.py:71-105 | The report has 2 blocks, plus (number of labs + 2) blocks per project. |
| Notifier.DeclaredReportLength | manager/app/notifier/notifier.py:71-105 | With the 2 projects and 7 labs the module declares, the report has 20 blocks. |
| Notifier.AppendLabSections | manager/app/notifier/notifier.py:90-100 | The inner loop appends one section per lab of the project, in roster order, after what the report already holds. |
| Notifier.Render | manager/app/notifier/notifier.py:71-105 | The nested loops produce: header and divider, then per project its capitalized header, one section per lab in roster order, and a divider. |
| Notifier.CreateSummary | manager/app/notifier/notifier.py:39-107 | `create_summary` fails exactly when a selected row's project is outside the roster. Otherwise it is the 20-block report of the summary of the selected rows. |
| Sabin.FormatAll | monit-collector/app/crud.py:15-23 | Formatting keeps the number of records. |
| Sabin.FormatAllAt | monit-collector/app/crud.py:15-23 | The i-th formatted record is the i-th record with its three dates as `%d/%m/%Y`, so order is kept. |
| Sabin.FormatRowRoundTrip | monit-collector/app/crud.py:19-21 | Every field of a record, the three dates included, reads back from its formatted form. |
| Sabin.FormatSabinData | monit-collector/app/crud.py:18-23 | The loop yields the formatted records, in order. |
| Sabin.OnDate | monit-collector/app/crud.py:39-43 | A date's group holds exactly the records with that date. |
| Sabin.FilePathInjective | monit-collector/app/crud.py:46 | Two date texts without a '-' of their own get different paths. |
| Sabin.SaveByDate | monit-collector/app/crud.py:34-48 | Every date gets a file, and every file is the path of some date and holds that date's group. |
| Sabin.GroupsPartition | monit-collector/app/crud.py:34-43 | Over distinct dates that cover every record, the group sizes add up to the number of records. |
| Sabin.OnDateOfFormatted | monit-collector/app/crud.py:39-43 | The group of a day's text is exactly the formatted records attended that day, in input order. |
| Sabin.DayPathsDistinct | monit-collector/app/crud.py:46 | Different valid dates never share a file. |
| Sabin.FileOfDay | monit-collector/app/crud.py:34-48 | Once saved, the file of a record's day holds exactly the formatted records attended that day. |
| Sabin.FileHasDay | monit-collector/app/crud.py:34-48 | Every file saved is the file of some record's day. |
| Sabin.SaveSabinData | monit-collector/app/crud.py:50-62 | The paths are exactly those of the records' attendance days, and each day's file holds, in input order, the formatted records attended that day. |
| Calendar.DaysInMonth | extractor/app/download_files.py:76 | A month has 28 to 31 days. |
| Calendar.PrevDay | extractor/app/download_files.py:76 | The day before is a valid earlier date. Only 0001-01-01 has none (OverflowError). |
| Calendar.NextDay | extractor/app/download_files.py:76 | The day after is a valid later date. Only 9999-12-31 has none. |
| Calendar.NextOfPrev | extractor/app/download_files.py:76 | Stepping a day back and then forward returns to the same date. |
| Calendar.PrevDayIsAdjacent | extractor/app/download_files.py:76 | No date lies strictly between a date and the day before it. |
| Calendar.YearText | extractor/app/download_files.py:170 | `%Y` is digits that read back as the year, 4 of them for years 1000 to 9999. |
| Calendar.IsoDateFields | extractor/app/download_files.py:137 | `%Y-%m-%d` is 10 characters whose year, month and day slices read back. |
| Calendar.SlashDateIsIsoDateWithSlashes | extractor/app/download_files.py:77-79 | `%Y/%m/%d` is `%Y-%m-%d` with the dashes turned into slashes. |
| Calendar.DmyDateFields | monit-collector/app/crud.py:19-21 | `%d/%m/%Y` is 10 characters with '/' at 2 and 5. Day, month and year read back, and only digits and '/' appear. |
| Calendar.ClockText | monit-collector/app/log.py:15 | `%H:%M:%S` is 8 characters whose fields read back. |
| Calendar.DmyDateInjective | monit-collector/app/crud.py:19-21 | Different valid dates have different `%d/%m/%Y` texts. |
| Calendar.ParseIsoDate | extractor/app/download_files.py:158-160 | A date that `strptime(s, '%Y-%m-%d')` gives is valid. |
| Calendar.IsoDateRoundTrip | extractor/app/download_files.py:150-170 | What `strftime('%Y-%m-%d')` writes, `strptime` reads back as the same date. |
| EmailDownload.MonthNumber | extractor/app/download_files.py:137 | `%b` gives the month whose English abbreviation it is, written as RFC 5322 writes it, and fails for a text that is no such abbreviation. |
| EmailDownload.MonthNumberOf | extractor/app/download_files.py:137 | Each month's abbreviation reads as that month. |
| EmailDownload.HeaderDate | extractor/app/download_files.py:137 | A `Date` header that reads, in the RFC 5322 layout, gives a valid date. |
| EmailDownload.HeaderDateRoundTrip | extractor/app/download_files.py:137 | A header written as in section 3.3 of RFC 5322 (`Mon, 15 Mar 2024 10:05:07 +0000`) reads back as its own calendar date. |
| EmailDownload.ShownNameOfSaved | extractor/app/download_files.py:139-141 | For an attachment name without `__`, the part after the last `__` of the saved path is that name, in any folder and for any lab. The notifier shows that part (manager/app/notifier/notifier.py:67). |
| EmailDownload.FirstHeader | extractor/app/download_files.py:109-110 | The first header of a name is found exactly when one exists (otherwise StopIteration), and it is a header with that name. |
| EmailDownload.PartAttachmentsMembers | extractor/app/download_files.py:113-123 | A message's buffers are exactly its parts with a non-empty name, each with the message's date and sender. |
| EmailDownload.CollectedFailsIffHeaderMissing | extractor/app/download_files.py:104-111 | Collecting fails exactly when some message lacks its `Date` or `From` header. |
| EmailDownload.CollectedFromParts | extractor/app/download_files.py:104-125 | Every collected buffer has a name and comes from a part of some message, with that message's first `Date` and `From`. |
| EmailDownload.NamedParts | extractor/app/download_files.py:113-123 | The inner loop yields the named parts in part order. |
| EmailDownload.DownloadAttachmentsFromLab | extractor/app/download_files.py:94-125 | The loop yields the buffers of all messages in message and part order, empty when there are none, or stops at the first message missing a header. |
| EmailDownload.ReadablePrefix | extractor/app/download_files.py:134-137 | Counts the attachments, from the first, whose `Date` reads. The next one does not read. |
| EmailDownload.SaveWrites | extractor/app/download_files.py:134-146 | One write per attachment up to the first unreadable `Date`, which stops the loop with ValueError. Each write is `{lab}_{YYYY-MM-DD}__{filename}` in the folder, with the attachment's bytes. |
| EmailDownload.SavedFilesShowOriginalNames | extractor/app/download_files.py:139 | For every file written whose attachment name has no `__`, the notifier shows the attachment's own name. |
| EmailDownload.EmailQueries | extractor/app/download_files.py:88-89 | One `from:{email} after:{date} has:attachment` query per address, in order. |
| EmailDownload.SearchStart | extractor/app/download_files.py:75-76 | The search starts on a valid date, the day before the stamp's. |
| EmailDownload.FirstRunStartsYesterday | extractor/app/download_files.py:150-170 | With today's stamp the search starts yesterday. |
| EmailDownload.Downloader.constructor | extractor/app/download_files.py:28-34 | Starts from the given folders and stamp, with nothing searched or written. |
| EmailDownload.Downloader.WriteLastDownloadTime | extractor/app/download_files.py:165-170 | The stamp becomes today's `YYYY-MM-DD`; nothing else changes. |
| EmailDownload.Downloader.GetLastDownloadTime | extractor/app/download_files.py:150-162 | With no stamp, today's is written first. The result is the stamp read back, and it is today on a first run. |
| EmailDownload.Downloader.SaveAttachmentsInFolder | extractor/app/download_files.py:128-146 | A missing folder gets nothing written. Otherwise the writes are exactly `SaveWrites`, with its error. |
| EmailDownload.Downloader.SearchWindow | extractor/app/download_files.py:75-77 | The `after:` date is the day before the stamp's, as `%Y/%m/%d`. It fails exactly when the stamp does not read or has no day before. |
| EmailDownload.Downloader.DownloadFromAddress | extractor/app/download_files.py:88-91 | The query, the writes and the error are exactly those of `AddressOutcome`: a failed collection writes nothing and returns its error; a missing folder writes nothing and succeeds; otherwise the writes and error of `SaveWrites`. Nothing else changes. |
| EmailDownload.AddressOutcomeFacts | extractor/app/download_files.py:88-146 | One address makes exactly its own query. It fails exactly when a message found lacks `Date` or `From`, or when the lab's folder exists and some attachment's `Date` does not read. It writes only into the lab's folder, and only when that exists. |
| EmailDownload.Downloader.DownloadLab | extractor/app/download_files.py:81-91 | The queries, writes and error are exactly those of `LabOutcome`: the addresses in order until the first that fails. |
| EmailDownload.LabOutcomeFacts | extractor/app/download_files.py:81-91 | A lab fails exactly when one of its addresses fails, and writes only into its own folder, which exists. |
| EmailDownload.LabOutcomeQueries | extractor/app/download_files.py:81-91 | A lab that completes queries every address in order, even with its folder missing. One that fails does so at its first failing address, after the queries up to and including it; later addresses are not searched. |
| EmailDownload.Downloader.DownloadAttachmentsFromEmail | extractor/app/download_files.py:70-91 | A stamp with no readable day before fails with nothing searched or written. Otherwise the queries, writes and error are exactly those of `ListOutcome` for the window's `%Y/%m/%d` date. |
| EmailDownload.ListOutcomeFacts | extractor/app/download_files.py:70-91 | The labs fail exactly when one lab fails; labs that complete make every lab's queries in `emails.json` order; every write goes into an existing folder. |
| EmailDownload.DownloadCompletesIff | extractor/app/download_files.py:70-146 | The download completes exactly when no address of any lab fails. |
| EmailDownload.Downloader.Run | extractor/app/download_files.py:37-55 | A missing `emails.json` (None from `load_email_list_from_file`) fails with AttributeError before anything is searched or written. Otherwise the searches, writes and error are those of the download, and the stamp becomes today's exactly when the download completes. |
| Matrices.ListMatrices | manager/app/matrices.py:8-20 | One dictionary per listing tuple. |
| Matrices.MatrixOfListing | manager/app/matrices.py:13-18 | The name is the path's last '/'-separated segment and holds no '/'. Path, size and modification time are copied, and the URL is the base, `/public/`, then the path. |
| Matrices.ProjectIffArboInPath | manager/app/matrices.py:14 | The project is `arbo` exactly when `arbo` occurs in the path, and `respat` otherwise. |
| Matrices.ListMatricesInOrder | manager/app/matrices.py:8-20 | The arbo listings come first, then the respat ones, each in listing order. |
| Matrices.ArboFolderIsArbo | manager/app/matrices.py:6-14 | Every file of the arbo folder is an `arbo` matrix. |
| Matrices.RespatFolderProject | manager/app/matrices.py:7-14 | A file of the respat folder is classed `arbo` exactly when its own name contains `arbo`. |
| Matrices.DefaultUrl | manager/app/matrices.py:9-18 | With `MINIO_BASE_URL` unset, URLs start with `http://localhost:9000/public/`. |
| Healthcheck.MissingMembers | gmail-extractor/app/healthcheck/check.py:29-33 | A name is reported missing exactly when it is checked and unset or empty. |
| Healthcheck.GmailMissingInOrder | gmail-extractor/app/healthcheck/check.py:24-33 | The missing list is those of EMAIL_ADDRESS and EMAIL_APP_PASSWORD that are unset or empty, in that order. |
| Healthcheck.GmailEnvVariablesAreSet | gmail-extractor/app/healthcheck/check.py:23-37 | The check passes exactly when nothing is missing. Otherwise its message names the missing variables joined by ','. |
| Healthcheck.GmailCheckPassesIffBothSet | gmail-extractor/app/healthcheck/check.py:24-37 | The Gmail check passes exactly when both variables are set and non-empty. |
| Healthcheck.ManagerApiIsReachable | gmail-extractor/app/healthcheck/check.py:8-21 | No request is made exactly when MANAGER_ENDPOINT is unset or empty. A request goes to the endpoint, and the check passes exactly when it is answered 200. |
| Healthcheck.ReachabilityMessages | gmail-extractor/app/healthcheck/check.py:11-21 | Each failure carries the message of its cause: missing endpoint, exception text, or non-200. |
| Healthcheck.EmailsJsonIsCorrectlyDefined | gmail-extractor/app/healthcheck/check.py:39-54 | Passes exactly when the file exists, reads and decodes as JSON. |
| Healthcheck.Report | gmail-extractor/app/healthcheck/check.py:64-76 | Every check is reported on its own line, with `FAILED` for a failure, and none is skipped. The exit code is 0 exactly when all passed, and 1 otherwise. |
| Healthcheck.AllHealthyOfThree | gmail-extractor/app/healthcheck/check.py:58-71 | The three checks are all healthy exactly when each is. |
| Healthcheck.Healthcheck | gmail-extractor/app/healthcheck/check.py:56-76 | Three lines in the dictionary's order: the manager's verdict, the Gmail verdict (passing with "Able to read GMail env variables" exactly when nothing is missing, otherwise naming the missing variables joined by ','), and the `emails.json` verdict. The exit code is 0 exactly when the manager answered 200, both Gmail variables are set, and `emails.json` is valid JSON. |
| Infodengue.NorteStates | infodengue-extractor/app/main.py:47-54 | The states the region table puts in Norte are AC, AP, AM, PA, RO, RR, TO. |
| Infodengue.NorteHasCapitals | infodengue-extractor/app/main.py:5-33 | Each Norte state has its capital in the geocode table. |
| Infodengue.NordesteStates | infodengue-extractor/app/main.py:47-54 | The Nordeste states are exactly the nine listed. |
| Infodengue.NordesteHasCapitals | infodengue-extractor/app/main.py:5-33 | Each Nordeste state has its capital in the geocode table. |
| Infodengue.CentroOesteStates | infodengue-extractor/app/main.py:47-54 | The Centro-Oeste states are DF, GO, MT, MS. |
| Infodengue.CentroOesteHasCapitals | infodengue-extractor/app/main.py:5-33 | Each Centro-Oeste state has its capital in the geocode table. |
| Infodengue.SudesteStates | infodengue-extractor/app/main.py:47-54 | The Sudeste states are ES, MG, RJ, SP. |
| Infodengue.SudesteHasCapitals | infodengue-extractor/app/main.py:5-33 | Each Sudeste state has its capital in the geocode table. |
| Infodengue.SulStates | infodengue-extractor/app/main.py:47-54 | The Sul states are PR, RS, SC. |
| Infodengue.SulHasCapitals | infodengue-extractor/app/main.py:5-33 | Each Sul state has its capital in the geocode table. |
| Infodengue.RegionNames | infodengue-extractor/app/main.py:47-54 | The region values are exactly Norte, Nordeste, Centro-Oeste, Sudeste and Sul. |
| Infodengue.RegionsCover | infodengue-extractor/app/main.py:47-54 | The states are the union of the five regions, and the regions are pairwise disjoint. |
| Infodengue.RegionCounts | infodengue-extractor/app/main.py:47-54 | The regions hold 7, 9, 4, 4 and 3 states, 27 in all. |
| Infodengue.EveryStateHasCapital | infodengue-extractor/app/main.py:5-54 | Every state of the region table is a value of the geocode table. |
| Infodengue.NamesAndRegionsAgree | infodengue-extractor/app/main.py:35-54 | The name table and the region table list the same states. |
| Infodengue.GeocodeCount | infodengue-extractor/app/main.py:5-33 | The geocode table has 27 entries. |
| Infodengue.TablesAgree | infodengue-extractor/app/main.py:5-54 | The geocode table's UFs are exactly the keys of the name table and of the region table, 27 of them. |
| Infodengue.GeocodeToUfInjective | infodengue-extractor/app/main.py:5-33 | The geocode table has 27 entries, and no two geocodes share a UF. |
| Infodengue.ParamsHaveNoQuestionMark | infodengue-extractor/app/main.py:63-64 | The appended query holds no '?' unless the disease name does. |
| Infodengue.TwoQuestionMarks | infodengue-extractor/app/main.py:57-65 | The URL starts with `BASE_URL` unchanged and holds exactly two '?': the one inside `BASE_URL` and the one written after it. |
| Infodengue.Select | infodengue-extractor/app/main.py:61-69 | Selecting succeeds exactly when every column is present, and then keeps exactly those columns with their values. |
| Infodengue.GetDataInfodengue | infodengue-extractor/app/main.py:59-74 | Gives a frame exactly when reading the composed URL succeeds and has all six columns, and then the result is those six columns, in order, each with the frame's own cells. Any failure gives None, not an exception. |
| Text.Decimal | infodengue-extractor/app/main.py:63-64 | `str(n)` is digits that read back as n. |
| Text.ZeroPadded | manager/app/main.py:14 | Zero padding to width w gives w digits that read back as the number. |
| Text.Find | manager/app/notifier/notifier.py:67 | `str.find` reports the leftmost occurrence, and None exactly when there is none. |
| Text.ContainsIffOccurs | manager/app/matrices.py:14 | `t in s` holds exactly when t occurs at some position of s. |
| Text.LastPieceHasNoSeparator | manager/app/matrices.py:13 | `s.split(sep)[-1]` holds no sep. |
| Text.LastPieceIsTail | manager/app/matrices.py:13 | `s.split(sep)[-1]` is a suffix of s, preceded by sep unless it is the whole of s. |
| Text.JoinSplit | gmail-extractor/app/healthcheck/check.py:36 | Splitting and joining back with the same separator gives the original. |
| Text.LastPieceAfterDoubleUnderscore | manager/app/notifier/notifier.py:67 | After a prefix ending in a character other than '_', the last piece of `prefix__name` is name when name holds no `__`. |
| Text.ReplaceCharInjective | monit-collector/app/crud.py:46 | Replacing '/' by '-' loses nothing when '-' did not occur. |

## Left out

- The manager's HTTP handlers for `POST /log`, `PUT /status` and `POST /file` are not part of this model, as
  the files that hold them are not. The store follows the record definitions in manager/app/models.py and
  what the manager's tests assert. The session ids and the store's module-load instant are parameters.
- The `GET /log` route in manager/app/main.py:12-14 returns the id as a bare string with the default status.
  The tests (manager/tests/test_Log.py:19-23) expect 201 and a `{"session_id": ...}` object, and
  monit-collector/app/log.py:66 reads `['session_id']`. The model does not reconcile them:
  `ManagerClient` takes the reply's `session_id` as given or absent.
- The log tests post the level under `"type"` (manager/tests/test_Log.py:26-59), but `LogModel` requires
  `level` (manager/app/models.py:69). The model follows `LogModel`. `TrackingStore.TypeKeyPayloadUnprocessable`
  records that the tests' payload is then unprocessable. That contradicts the 200 and 404 the tests
  expect, and which one is right is not decided here.
- TrackingStore.OpenStep: a duplicate session id is refused with a store error. Which error the database
  reports is not modelled.
- Clock readings, the random draw, today's date and the weekday arithmetic's "now" are parameters. Time
  zones and the notifier header's `%d %b %Y - %H:%M` clock text (an opaque string) are not modelled.
- `strptime` is modelled for the inputs the services feed it, within that format. Leap seconds,
  `%a`/weekday consistency (which Python does not check either) and locale-dependent names are not modelled.
- Google OAuth and token handling (`get_google_api_service`, extractor/app/generate_credentials.py), the
  Gmail API calls and base64url decoding are left out. The messages a query finds are a parameter
  (`inbox`), with each part's decoded bytes.
- Parsing `emails.json` is left out; the list arrives already parsed, or absent when the file is missing.
  A file that exists but does not parse raises in the source, and that case is not modelled.
- File writes are modelled by their paths and contents (a map in `Sabin`, a list of writes in
  `EmailDownload`); the JSON encoding of the Sabin records is not modelled.
- The SQLite query execution and the ORM, the Slack POST of the notifier's `__main__` block, and the
  printing of the health check are left out. The query's filter is a function over rows, and printed
  lines are returned.
- The MinIO listing (`list_files_in_folder`) is an input: two sequences of `(path, size, last_modified)`.
- `pandas.read_csv` is the parameter `fetch`, from URL to an optional frame of named columns. Column types
  and the printed error text are not modelled.
- The FastAPI route of the collector (monit-collector/app/main.py), the InfoDengue extractor's own health
  check, sivep-extractor/app/main.py and example-extractor/app/main.py are scripts around network calls
  and are not modelled.
- Healthcheck.EmailsJsonIsCorrectlyDefined: its contract states the verdict only; the three failure
  messages are in its body but not stated in an ensures.
- EmailDownload.PartAttachments: its own contract bounds the length only. Its contents are stated by
  `PartAttachmentsMembers` (membership) and by `NamedParts` (order).
- Text.Split models Python's split as cuts at the leftmost, non-overlapping occurrences, which is what
  CPython does. `LastPiece` is the last of those pieces.
- `strftime`'s `%Y` is modelled without padding for years below 1000 (glibc's behaviour). The length
  statements about `strftime` text require a year from 1000 to 9999. `isoformat()` always pads to four
  digits, and is modelled so.
- EmailDownload.HeaderDate: stricter than `strptime('%a, %d %b %Y %H:%M:%S %z')`, which also accepts
  day and month names in any letter case and full names (`Monday`, `March`), runs of whitespace where the
  format has one space, one-digit hours, minutes and seconds, and zones written `+hh:mm`, with seconds,
  or as `Z`. Such headers read as `None` here.
- EmailDownload.MonthNumber: matches the English abbreviations exactly as written (`Mar`), where `%b`
  ignores letter case and also takes full month names.
- The text of an exception a call raises (refused connection, timeout), and a response's reason phrase and
  final URL, are part of the reply the server parameter gives. How `requests` builds them is not modelled.
- ManagerClient.CloseRequest: with no session id the model leaves `session_id` out of the JSON body.
  `requests` sends it as `null` there, which the model does not represent.
- ManagerClient.Process.Log: a record goes to the handlers of the named logger only. Propagation to the
  handlers of its dotted ancestors (`a` for `a.b`) and of the root logger is not modelled.
- Text.UpperChar, Text.LowerChar, Text.Upper, Text.Lower, Text.Capitalize: ASCII letters only. Python's
  `str.upper`, `str.lower` and `str.capitalize` map every Unicode cased letter and may change the length
  (`"ß".upper() == "SS"`).
- `logging`'s own formatting of records to standard error (monit-collector/app/log.py:6-9) is not modelled.
  Only the API handler's traffic is.

## Findings

| source | as written | input that shows it | evidently intended | confidence | as-written member | corrected member |
|---|---|---|---|---|---|---|
| manager/app/main.py:14 | the stamp pattern `%Y%m%d%H%m%S` writes the month where the minutes belong | app `TestApp`, draw 42, at 2024-03-15 10:05:07 and at 10:45:07: both give `TestApp-20240315100307-0000042` | `%Y%m%d%H%M%S`, so ids of one app differ for different seconds | not executed | SessionIds.MinuteCollision | SessionIds.IntendedSessionIdInjective |
