# NASentinel log client, modelled in Dafny

NASentinel is a desktop client for a Synology NAS. It logs an administrator in
through the NAS web API and reads the system and File Station logs page by page.
It filters those logs by date, priority and event, and shows them 100 rows to a
page. From the File Station log it builds upload, download and delete
leaderboards. It exports each of these to a time-stamped spreadsheet on the
Desktop.

This project models the logic of that client:

- `api.dfy` (module `Api`) covers `NASClient`:
  - the error catalogue and URL building;
  - login, logout and the session id;
  - the `@retry` policy (three attempts, only transport failures retried);
  - the single-page query and the `fetch_all_logs` pagination loop.

  The network is a parameter. Each call reads a script of attempts, where each attempt is answered or dropped. The paginator's server is a sequence of such scripts, one per page.
- Log buffers:
  - `system_log.dfy` (`SystemLogs`) and `filestation_log.dfy` (`FileStationLogs`) model the `System_Log` and `FilesStation_Log` buffers as classes that own their `logs` list. Each has a label lookup, `add_log` and `save_to_file`.
  - `ranking_log.dfy` (`RankingLogs`) models the `Ranking_Log` buffer and the sheets `save_to_excel` writes.
  - `sheets.dfy` (`Sheets`) holds what the three buffers share: the file name built from the clock, a DataFrame as header and rows, and the save protocol. The save protocol is: nothing to save; written and cleared; or failed and kept.
- The logic inside the GUI file `main.py`:
  - `inputs.dfy` (`Inputs`): `validate_inputs` and `validate_date`.
  - `paging.dfy` (`Paging`): the table pager of each log tab.
  - `filters.dfy` (`Filters`): the date checks and the three filter loops of `fetch_logs`.
  - `rankings.dfy` (`Rankings`): the group, count, sort and top-10 pipeline of `populate_rankings`, and the rows it stores.
- `common.dfy` (`Common`) holds shared pieces:
  - optional values and results;
  - the scalar JSON values the server sends;
  - the Python string operations the client relies on: `str()`, `lower()`, `isdigit()`, `int()`, `split()` and `strip()`.

Three behaviours of the code that the model keeps as written:

- The retry decorator has no `reraise`. So when all three attempts of a retried call fail at the transport level, tenacity raises a `RetryError` that wraps the last failure (`Common.RetryExhausted`).
- `sort_values` uses pandas' default sort, which is not stable, so the order of equal counts is not fixed. The model states the leaderboard property for every tie order (`Rankings.IsLeaderboard`). Its own sort (`Rankings.SortByCount`) is one such order.
- The table rows read `log["ip"]`, `log["isdir"]` and so on directly. So a kept File Station record that lacks one of those fields raises `KeyError` and ends the search. On the File Station tab the buffer has already stored it by then.

## Model

| member | source | states |
|---|---|---|
| Common.NatText | module/ranking_log.py:55 | `str(n)` of a natural number is all digits with no leading zero |
| Common.NatTextValue | module/ranking_log.py:55 | the decimal text of n reads back as n |
| Common.IntTextInjective | module/api.py:68 | distinct integers print as distinct texts |
| Common.Lower | module/system_log.py:52 | `lower()` keeps the length and lowers each character on its own |
| Common.LowerIdempotent | module/system_log.py:52 | lowering twice is lowering once |
| Common.PyInt | module/main.py:618 | `int()` of an all-digit text is its decimal value |
| Common.Split | module/main.py:526 | `split("-")` always gives at least one part |
| Common.SplitJoin | module/main.py:526 | splitting cuts exactly at the separators: the parts hold none, and joining them restores the text |
| Common.JoinSplit | module/main.py:526 | joining separator-free parts and splitting again gives the parts back |
| Common.FirstMissing | module/system_log.py:65-68 | the first required key the record lacks; None exactly when every key is present |
| Api.ErrorMessage | module/api.py:58-68 | the ten catalogued codes give their fixed message; every other code gives "未知錯誤 (代碼: N)"; never fails |
| Api.UnknownErrorInjective | module/api.py:68 | the generic message names its code text |
| Api.CatalogueDistinct | module/api.py:20-31 | no two catalogued codes share a message |
| Api.ErrorMessageInjective | module/api.py:20-68 | distinct codes never get the same message |
| Api.RetryFrom | module/api.py:70 | at most three attempts; only dropped attempts are retried; success exactly when an attempt is answered, with that answer; otherwise three attempts and a RetryError wrapping the third failure |
| Api.Retry | module/api.py:70 | the retry loop returns the decorator's outcome after 1 to 3 attempts |
| Api.RetryReadsThreeAttempts | module/api.py:70 | nothing after the third attempt affects the outcome |
| Api.RetryIsTransparent | module/api.py:154 | two transport failures and then an answer give the caller the answer and no error |
| Api.LoginParams | module/api.py:88-98 | `otp_code` is sent exactly when an OTP is given and non-empty; account, password and method are sent as given |
| Api.UserParams | module/api.py:134-144 | method "get" with `name` for a named user, otherwise "list" without `name`; `_sid` is the session id; `additional` only when non-empty |
| Api.PageParams | module/api.py:170-179 | limit, offset and log type are sent; `_sid` is sent unchecked, and left out entirely when there is no session |
| Api.LoginStep | module/api.py:70-115 | for any network: the attempts are the retry policy's; a transport failure is passed on and clears nothing; an answer with a sid stores and returns it; an answer without one raises the catalogue message for its code and clears the password for 400, 408, 409 and 410 and the OTP for 404 and 406, each only when its callback is given; on failure the sid is unchanged |
| Api.LoginRejection | module/api.py:70-115 | whatever transport failures came first, an answer without a sid raises the catalogue message, keeps the sid and counts the retried attempts; the password is cleared exactly for 400, 408, 409 and 410, the OTP exactly for 404 and 406, each only when its callback is given |
| Api.LoginAfterDrop | module/api.py:70-106 | a dropped first attempt followed by a granted login stores and returns the sid after two attempts, clearing nothing |
| Api.ClearingCodesAreCatalogued | module/api.py:108-113 | every code that clears a field has its own catalogue message |
| Api.NoClearingWithoutCause | module/api.py:70-115 | after any retries, an answer with code 403, or with no code at all, raises without clearing anything |
| Api.UserInfoOutcome | module/api.py:132-152 | without a session it raises the not-logged-in error; with one, an answered reply that reports success is returned as it is, one that reports failure raises `API 返回失敗` with its error, and a transport failure after the retries is passed on |
| Api.PageOutcome | module/api.py:154-185 | an answered reply that reports success is returned as it is; one that reports failure raises `API 返回失敗` with its error; a transport failure after the retries is passed on; so a page succeeds only with an answered reply that reports success |
| Api.PageItems | module/api.py:210-218 | a loop turn fails only with a plain exception, never a RetryError |
| Api.UnscriptedPageFails | module/api.py:210 | a page the server never answers fails the turn |
| Api.Turns | module/api.py:208-227 | one turn per page the server holds, each being that page's read |
| Api.TurnOfPage | module/api.py:208-227 | the turn for page k is the read of page k, scripted or not |
| Api.Reach | module/api.py:208-224 | the loop makes between 1 and (pages + 1) requests |
| Api.ConcatAppend | module/api.py:219 | extending by one more page appends its items at the end |
| Api.FetchAllNeverRetried | module/api.py:187-227 | every failure of `fetch_all_logs` is a plain exception, so its own retry decorator never retries it |
| Api.WalkFailsAtATurn | module/api.py:226-227 | a failing fetch fails with the error of one of its pages |
| Api.FailedTurn | module/api.py:226-227 | a failing page k ends the fetch with its error, after k + 1 requests |
| Api.ShortTurn | module/api.py:221-222 | a short page k ends the fetch with every page read so far, after k + 1 requests |
| Api.FullTurn | module/api.py:219-224 | a full page k sends the loop on to page k + 1 |
| Api.PageOffsets | module/api.py:205-224 | one offset per requested page |
| Api.PageOffsetsInOrder | module/api.py:205-224 | the i-th request starts at offset i * page size |
| Api.WalkShape | module/api.py:208-224 | a successful fetch read pages 0, 1, ... in order; every page before the last is full and the last is short |
| Api.FetchAllIsConcatenation | module/api.py:204-234 | a successful fetch returns the in-order concatenation of the pages it read; all pages but the last are full |
| Api.FailingPageFailsWalk | module/api.py:212-227 | if a page fails before any short page, the whole fetch fails with its error and no partial result |
| Api.FailingPageFailsFetch | module/api.py:212-227 | the same for `fetch_all_logs` with a session |
| Api.HonestWalk | module/api.py:208-224 | against a server that serves a log in chunks, the loop succeeds from every page on |
| Api.FetchAllHonest | module/api.py:187-234 | round trip: against a server holding a log, the fetch returns exactly that log after size / limit + 1 requests |
| Api.ThreePagesExample | module/api.py:187-234 | pages of 1000, 1000 and 400 records take three requests and return all 2400 |
| Api.LogoutStep | module/api.py:264-292 | without a session: True, no request, sid unchanged; a cleared sid only with a True result; a dropped request that was sent raises |
| Api.LogoutTwice | module/api.py:274-289 | after an accepted logout, a second one sends nothing and returns True |
| Api.LoginThenLogout | module/api.py:104-289 | a granted login followed by an accepted logout leaves no session |
| Api.NASClient.constructor | module/api.py:33-44 | host and port are stored; there is no session yet |
| Api.NASClient.BuildUrl | module/api.py:46-56 | the base URL followed verbatim by the endpoint |
| Api.NASClient.Login | module/api.py:70-115 | sends the login query to auth.cgi; its effect on sid, result, attempts and callbacks is LoginStep's |
| Api.NASClient.FetchUserInfo | module/api.py:117-152 | no request without a session; otherwise the user query to entry.cgi; result as UserInfoOutcome |
| Api.NASClient.FetchLogsPage | module/api.py:154-185 | the page query is sent whether or not there is a session; result and attempt count as the retry policy gives |
| Api.NASClient.FetchAllLogs | module/api.py:187-234 | result is the paginator's specification; requested offsets are 0, L, 2L, ... for exactly the pages requested; the i-th request is the entry.cgi log query for the given log type, limit L and the i-th offset, carrying the session id |
| Api.NASClient.ReadPage | module/api.py:208-218 | one loop turn gives the page's items or its wrapped failure, and sends the entry.cgi log query for its log type, limit and offset |
| Api.NASClient.FetchSystemLogs | module/api.py:236-248 | the paginator's result with pages of 1000; every request asks for log type "system" with limit 1000 at offsets 0, 1000, 2000, ... |
| Api.NASClient.FetchFileStationLogs | module/api.py:250-262 | the paginator's result with pages of 1000; every request asks for log type "filestation" with limit 1000 at offsets 0, 1000, 2000, ... |
| Api.NASClient.Logout | module/api.py:264-292 | result, new sid and whether a request was sent are LogoutStep's; the request carries the old sid |
| Sheets.Pad | module/system_log.py:38 | a zero-padded strftime field is all digits and at least its width |
| Sheets.PadValue | module/system_log.py:38 | the padded field reads back as its number |
| Sheets.StampRoundTrip | module/system_log.py:38 | the `%Y-%m-%d-%H_%M_%S` stamp reads back as the clock it came from |
| Sheets.LogPath | module/system_log.py:31-40 | the path is as long as the home folder, "/Desktop/", the prefix, the stamp and ".xlsx" together, and ends in ".xlsx" |
| Sheets.LogPathParts | module/system_log.py:31-40 | the path starts with the home folder's Desktop, then the prefix, then a stamp that reads back as the creation time |
| Sheets.LogPathInjective | module/system_log.py:38-40 | buffers created at different seconds get different files |
| Sheets.Header | module/system_log.py:94 | the header row is the column names in order |
| Sheets.Row | module/system_log.py:94 | a DataFrame row holds each column's field, NaN where the entry lacks it |
| Sheets.Rows | module/system_log.py:94 | one row per entry, in buffer order |
| Sheets.SaveStep | module/system_log.py:91-99 | an empty buffer returns False and writes nothing; otherwise the workbook is written; True and a cleared buffer exactly on a successful write; on failure the prefixed error is raised and the buffer kept |
| Sheets.SaveAfterSave | module/system_log.py:91-97 | a save right after a successful one returns False |
| Sheets.SaveAfterFailure | module/system_log.py:93-99 | after a failed save the next save writes the same workbook again |
| SystemLogs.MapPriority | module/system_log.py:42-52 | info, warn and error, in any case, give 資訊, 警告 and 錯誤; any other level gives 未知事件 |
| SystemLogs.MapPriorityIgnoresCase | module/system_log.py:52 | only the case-folded level matters |
| SystemLogs.CompleteIffNoneMissing | module/system_log.py:65-68 | no required key is reported missing exactly when all four are present |
| SystemLogs.SystemEntry | module/system_log.py:54-79 | a row exactly for a complete record with a string level; otherwise the first missing key in the order level, time, who, descr, or the failure of `lower()`, behind the "添加日誌失敗: " prefix; the row's fields |
| SystemLogs.SavedRowOfEntry | module/system_log.py:70-94 | a stored row fills the five sheet columns with its own fields |
| SystemLogs.MissingKeyReported | module/system_log.py:65-79 | a record lacking time raises "添加日誌失敗: '項目遺失: time'" |
| SystemLogs.FirstMissingAt | module/system_log.py:66-68 | the key the check loop stops at is the first missing one |
| SystemLogs.SystemLog.constructor | module/system_log.py:24-29 | a new buffer is empty and named NAS_System_Log_<stamp>.xlsx |
| SystemLogs.SystemLog.AddLog | module/system_log.py:54-79 | appends exactly the row SystemEntry gives, or raises its error and leaves the buffer unchanged |
| SystemLogs.SystemLog.SaveToFile | module/system_log.py:81-99 | SaveStep over the five SYSTEM_COLUMNS |
| FileStationLogs.MapEvent | module/filestation_log.py:49-59 | a case-insensitive lookup of the ten commands; any other command gives 未知事件 |
| FileStationLogs.MapEventIgnoresCase | module/filestation_log.py:59 | only the case-folded command matters |
| FileStationLogs.FolderFlags | module/filestation_log.py:72 | an absent flag, False and 1 mean a file; True and "TRUE" mean a folder |
| FileStationLogs.FileStationEntry | module/filestation_log.py:61-85 | a row unless the command is present and not a string, which raises at `lower()` with the prefix; the row is the normalised record |
| FileStationLogs.NormalisedColumns | module/filestation_log.py:73-82 | a row has exactly the eight FILESTATION_COLUMNS |
| FileStationLogs.NormalisedFields | module/filestation_log.py:73-100 | each sheet column holds its own field, with "N/A" for a missing one |
| FileStationLogs.MissingCommandIsUnknown | module/filestation_log.py:78 | a record without a command is kept, as an unknown event |
| FileStationLogs.EmptyRecordRow | module/filestation_log.py:72-82 | an empty record becomes "N/A" fields, an unknown event and a file |
| FileStationLogs.FileStationLog.constructor | module/filestation_log.py:31-36 | a new buffer is empty and named NAS_Filestation_Log_<stamp>.xlsx |
| FileStationLogs.FileStationLog.AddLog | module/filestation_log.py:61-85 | appends exactly the row FileStationEntry gives, or raises and leaves the buffer unchanged |
| FileStationLogs.FileStationLog.SaveToFile | module/filestation_log.py:87-105 | SaveStep over the eight FILESTATION_COLUMNS |
| RankingLogs.RankingEntryFields | module/ranking_log.py:53-61 | the row shows rank and count as decimal text, copies user, name and email, and is tagged with its kind; rank and count can be read back from it |
| RankingLogs.OfKind | module/ranking_log.py:106 | selecting one kind never adds rows |
| RankingLogs.OfKindAppend | module/ranking_log.py:106 | selection keeps buffer order |
| RankingLogs.OfKindMembers | module/ranking_log.py:106 | the selected rows are exactly the rows of that kind |
| RankingLogs.RankingBookUnfold | module/ranking_log.py:101-111 | the workbook is the upload, download and delete sheets, in that order |
| RankingLogs.BoardNamesDistinct | module/ranking_log.py:101-105 | the three sheet names differ |
| RankingLogs.SheetInBookIsOwn | module/ranking_log.py:106-111 | a sheet appears only for a kind that has rows |
| RankingLogs.RankingBookSheets | module/ranking_log.py:101-131 | the workbook holds a leaderboard's sheet, listing that kind's rows in buffer order, exactly when some row has its kind |
| RankingLogs.UnlistedKindIgnored | module/ranking_log.py:101-106 | a row of any other kind never reaches the workbook |
| RankingLogs.SelectKind | module/ranking_log.py:106 | the filter loop selects exactly OfKind |
| RankingLogs.RenderBoard | module/ranking_log.py:111-131 | the cell loops fill the title in row 1, the header in row 2 and the rows from row 3 |
| RankingLogs.BuildBook | module/ranking_log.py:101-134 | the loop over the three leaderboards builds the workbook `save_to_excel` writes |
| RankingLogs.RankingLog.constructor | module/ranking_log.py:20-25 | a new buffer is empty and named NAS_Ranking_Log_<stamp>.xlsx |
| RankingLogs.RankingLog.AddLog | module/ranking_log.py:38-64 | appends exactly one row at the end |
| RankingLogs.RankingLog.SaveToExcel | module/ranking_log.py:66-140 | SaveStep over the leaderboard workbook |
| Inputs.ValidateInputs | module/main.py:145-165 | accepted exactly when the IP has the shape, the port is in range and account and password are non-empty; the first failing check decides the warning |
| Inputs.DottedQuadOfRuns | module/main.py:152 | any four digit runs joined by dots pass, whatever their values |
| Inputs.DottedQuadRuns | module/main.py:152 | a passing IP is four digit runs joined by dots |
| Inputs.PortRange | module/main.py:155-156 | a decimal port passes exactly when its value is in 1..65535, leading zeros allowed |
| Inputs.DefaultPort | module/main.py:155 | an empty port field means 5000, which passes |
| Inputs.DaysInMonth | module/main.py:529 | every month has 28 to 31 days |
| Inputs.ZFill | module/main.py:529 | `zfill(2)` pads to at least two characters |
| Inputs.MonthField | module/main.py:529 | `%m` accepts only months 1..12 |
| Inputs.DayField | module/main.py:529 | `%d` accepts only days 1..31 |
| Inputs.DateFields | module/main.py:529 | strptime accepts only calendar dates |
| Inputs.ParseDate | module/main.py:529 | a parsed date is a calendar date |
| Inputs.MonthZFill | module/main.py:527-529 | zero-filling a month strptime accepts does not change it |
| Inputs.DayZFill | module/main.py:527-529 | zero-filling a day strptime accepts does not change it |
| Inputs.ValidateDate | module/main.py:515-532 | a valid date text parses |
| Inputs.DateTextRoundTrip | module/main.py:513-532 | every calendar date of a four-digit year, written as yyyy-MM-dd, is valid and parses back to itself |
| Inputs.NoDay | module/main.py:529-532 | a date whose zero-filled fields strptime refuses is invalid |
| Inputs.FebruaryEnds | module/main.py:515-532 | February 30 and 31 are refused in every year |
| Inputs.ShortMonths | module/main.py:515-532 | April, June, September and November have no 31st |
| Inputs.LeapDay | module/main.py:515-532 | February 29 is valid exactly in leap years |
| Paging.TotalPages | module/main.py:619 | the smallest page count that holds all n rows at 100 per page |
| Paging.PageSlice | module/main.py:652-654 | a page shows min(100, n - (p - 1) * 100) rows |
| Paging.PagesUpToPrefix | module/main.py:652-653 | the first k pages are the first min(100k, n) rows |
| Paging.PagesPartition | module/main.py:619-653 | read in order, the pages show every row once |
| Paging.Pager.constructor | module/main.py:764-780 | a refreshed tab shows its filtered rows from page 1 |
| Paging.Pager.Prev | module/main.py:630-636 | goes one page back only from above page 1; keeps 1 <= page <= max(1, total) |
| Paging.Pager.Next | module/main.py:638-645 | goes one page on only below the last page; keeps the bound |
| Paging.Pager.JumpTo | module/main.py:617-628 | a number in 1..total becomes the page; another number warns with the range and keeps the page; text `int()` rejects keeps it silently |
| Paging.Pager.ShowPage | module/main.py:651-660 | the table shows exactly the current page's slice |
| Filters.DateRange | module/main.py:746-758 | a bad start date warns first, then a bad end date, then a start after the end; fields that are empty or valid, with the start not after the end, are accepted; empty fields give no bound and each filled field gives its parsed date |
| Filters.OneBoundFiltersNothing | module/main.py:768 | with only one bound every date matches |
| Filters.FetchPlan | module/main.py:736-809 | warns, with the first failing check's message, exactly when the current tab's date checks fail; otherwise fetches with the current tab's range, and fetches a tab exactly when all six date fields are empty and no category is chosen, or the tab is the current one |
| Filters.InitialLoadFetchesEveryTab | module/main.py:736-809 | with all six date fields empty and no category chosen, every tab is fetched without date bounds |
| Filters.FilledFieldFetchesCurrentTab | module/main.py:736-809 | once any date field is filled, at most the current tab is fetched |
| Filters.StartAfterEndFetchesNothing | module/main.py:742-758 | a start after the end in the current tab's fields is refused before any fetch |
| Filters.SelectionMeaning | module/main.py:561 | "全部" keeps every category; any other choice keeps only its own |
| Filters.Visit | module/main.py:765-825 | a record that does not raise shows at most one row |
| Filters.SystemVisit | module/main.py:765-779 | a kept system record shows at most one row |
| Filters.FileStationVisit | module/main.py:788-805 | a kept File Station record shows at most one row |
| Filters.RankingVisit | module/main.py:813-825 | the rankings loop stores nothing in a buffer |
| Filters.RunAppend | module/main.py:765-805 | the loop over two lists of records is the loop over each in turn |
| Filters.RunStopsAt | module/main.py:765-830 | a record that raises ends the loop with the state just before it plus whatever that record had done |
| Filters.KeptRows | module/main.py:765-825 | the reference filter keeps at most the records it is given |
| Filters.FileStationRowAgrees | module/main.py:795-805 | the row the File Station table shows is the row its buffer stores |
| Filters.VisitKeeps | module/main.py:766-805 | a record that does not raise shows its row exactly when its time parses into the range and its category is chosen; the buffer stores what the table shows |
| Filters.BadLevelRaises | module/main.py:769 | a dated system record whose level is not a string raises at `lower()` |
| Filters.MissingAddressStoredNotShown | module/main.py:795-799 | a kept File Station record without an IP is stored by `add_log`, and then the table row raises KeyError 'ip' |
| Filters.RunFilters | module/main.py:765-825 | a loop that ends without an exception shows exactly the kept records' rows in server order, and the buffer holds the same rows |
| Filters.SystemRecord | module/main.py:766-779 | one system record: the buffer grows by its stored row, and the shown rows and error are its visit's |
| Filters.FilterSystemLogs | module/main.py:762-779 | the system loop leaves the buffer, table rows and error of the reference loop |
| Filters.FileStationRecord | module/main.py:789-805 | one File Station record, as for the system tab |
| Filters.FilterFileStationLogs | module/main.py:785-805 | the File Station loop leaves the buffer, table rows and error of the reference loop |
| Filters.RankingRecord | module/main.py:814-825 | one rankings record gives its visit's rows and error |
| Filters.FilterRankingRows | module/main.py:811-825 | the rankings loop gives the reference loop's rows and error |
| Filters.Refresh | module/main.py:781 | an empty result raises AttributeError on the missing page label; otherwise the table refreshes without error |
| Rankings.Names | module/main.py:840-841 | the names of the listed users, in list order |
| Rankings.Directory | module/main.py:839-841 | the dictionary exists exactly when every user has a name, and otherwise raises KeyError 'name'; its keys are the names |
| Rankings.LastUserWins | module/main.py:840-841 | a name maps to the last listed user with it, "N/A" for missing fields |
| Rankings.Matching | module/main.py:850 | the users of matching rows, never a missing user |
| Rankings.Distinct | module/main.py:850 | every user once, and nothing else |
| Rankings.Tally | module/main.py:850 | each distinct user with the number of matching rows that name them |
| Rankings.Insert | module/main.py:851 | insertion adds exactly one standing |
| Rankings.InsertMembers | module/main.py:851 | insertion adds nothing else |
| Rankings.InsertDescending | module/main.py:851 | insertion keeps counts non-increasing |
| Rankings.InsertDistinct | module/main.py:851 | inserting a new user keeps the users distinct |
| Rankings.SortByCount | module/main.py:851 | sorting is a permutation of the tally |
| Rankings.SortByCountSorted | module/main.py:851 | sorted counts are non-increasing, and distinct users stay distinct |
| Rankings.Top | module/main.py:851 | at most ten places |
| Rankings.TallyFacts | module/main.py:850 | the tally lists each matching user exactly once, with their count |
| Rankings.ExcludedRanksLow | module/main.py:851 | a user left off the board means the board is full, and that user's count is at most the tenth place's |
| Rankings.TopCounts | module/main.py:850-851 | every place holds a matching user with their count |
| Rankings.TopOrdered | module/main.py:851 | no user twice, counts non-increasing |
| Rankings.TopIsLeaderboard | module/main.py:850-851 | the pipeline's result is a leaderboard: right counts, distinct users, non-increasing, min(users, 10) places, and nobody left out beats a place |
| Rankings.BoardEntries | module/main.py:856-869 | one stored row per place, ranked from 1, with the place's user, count and contact |
| Rankings.StoredRows | module/main.py:852-869 | ranks are 1..N without gaps; user and count are the place's; a user missing from the directory gets "" name and email |
| Rankings.OfKindBoard | module/main.py:862-869 | selecting a leaderboard's kind keeps all of its rows, and selecting another kind none |
| Rankings.SheetShowsItsBoard | module/main.py:845-869 | each category's sheet shows exactly that category's leaderboard |
| Rankings.PopulateRankings | module/main.py:832-873 | fails with KeyError 'name' exactly when a user has no name; otherwise a new buffer holding the upload, download and delete leaderboards in that order |
| Rankings.StoreBoard | module/main.py:856-869 | one `add_log` per place, in rank order |

## Left out

- HTTP transport, JSON decoding, time-outs and the 2-second wait between attempts are left out. Each call reads a finite script of answered or dropped attempts. An attempt past the end of the script is dropped.
- Api.ErrorMessage: the error code is modelled as an integer or absent. Login formats an absent code as Python's None. Codes of other JSON types are not modelled.
- Common.Describe: a RetryError's text also holds the repr of a Python future. The model keeps only the last transport failure's text inside it.
- `json.dumps` of the `additional` field list is modelled for plain field names only. Escaping is not modelled.
- Common.Lower, Common.IsDigit, Common.IsSpace: only ASCII letters, digits and white space are recognised. Python's Unicode case folding, Unicode digits and the `$`-before-newline detail of `\d` are not modelled.
- `int()` of text with `_` digit separators is not modelled.
- `format_date` (`pd.to_datetime`) is a parameter of the filter settings, since its parsing rules belong to pandas. Only its "falsy text gives no date" branch is modelled.
- strptime is modelled for the field values `validate_date` lets through, field by field. Its other directives are not modelled.
- Sheets.Stamp: the year is not limited to four digits, as `datetime` limits it.
- The file system, `Path.home()` and `datetime.now()` are parameters. The spreadsheet writer is an oracle that either writes or fails.
- Fonts, fills, borders, column widths, cell merges and the openpyxl styling of the ranking workbook are presentation and are not modelled.
- RankingLogs.RankingLog.AddLog: the `except` branch of `add_log` cannot be reached, because building a dict and appending to a list do not raise. So the model has no error path there.
- Rankings.SortByCount: pandas' default sort does not fix the order of equal counts. The model sorts stably, and the leaderboard property (Rankings.TopIsLeaderboard) holds for any tie order. `groupby` also orders users by key, and Python's `1 == True` key equality: neither is modelled, since users are compared as JSON values.
- Rankings.PopulateRankings: the user list is its parameter. A failing `fetch_user_info` is modelled in Api (Api.UserInfoOutcome). A reply whose `data.users` is missing, or names that cannot be hashed, are not modelled.
- The Qt windows, table widgets, message boxes, the date-picker dialog (`date_picker.py`) and `center_window` are user interface and are not modelled. The ranking tables show the same cells as the stored rows.
- `export_logs` and the login window's use of the client are callers of the modelled operations and are not modelled.
- Filters.Refresh: it stands for the call on the never-created `system_page_label` / `filestation_page_label`. That call is modelled only as the AttributeError it raises.
