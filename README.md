# DeltaTracker, modelled in Dafny

DeltaTracker pulls per-day ranked ratings for a roster of Rocket League accounts from a stats
API and appends them to a Google spreadsheet. This project models the three pieces of
sequential logic under its network and sheet calls, and proves what they do.

- **The history engine** (`src/tracker.ts`, module `TrackerModel` in `tracker.dfy`). The
  `Tracker` class holds a profile cache and a reshaped-history cache. Both are keyed by the
  concatenation `platformID + platform`. A miss is filled by an HTTP fetch with a browser-page
  fallback. The fetches are function-typed parameters (`Strategies`), and a ghost request log
  shows which of them run. The history response is reshaped into per-playlist maps from day
  strings to ratings. The two queries are the rating on a day (a stored 0 reads as no rating)
  and the games played in a playlist (a first-match search over segments). `PureHistory`,
  `PureMMR` and `PureGamesPlayed` give the engine's answers as functions of the transport. The
  methods are proved equal to them for every account whose cache key it owns. `OwnedBy` says
  when an account owns its key.
- **The sheet logic** (`src/delta-sheet.ts`, module `DeltaSheetModel` in `delta_sheet.dfy`).
  - Roster rows become players and accounts. Each profile URL is split on `/`.
  - The last-pull-date dictionary is built from the tracking rows.
  - Output rows are projected to the seven written columns and the target range. The sheet
    reads and writes themselves are inputs and outputs of the model.
- **The sync pass** (`src/main.ts`, module `SyncDriver` in `sync_driver.dfy`).
  - The cursor starts at each account's last pull date, or at the launch date when there is
    none. It advances one day at a time while it is before now, and queries each day.
  - A day gives one row unless both ratings are null. A thrown query ends only that account.
  - Rows are buffered and written after every player whose index is a multiple of 20.
  - The queries come from `./ballchasing`, which is not part of this model. They are a
    parameter (`Oracles`) with the engine's signatures. `TrackerOracles` plugs in the engine's
    answers, and `TrackerDay` states what a day then yields.
- `text.dfy` (module `Text`) holds the JavaScript string operations the code relies on:
  decimal text of numbers, `padStart`, and `split`/`join` on one character. `wrappers.dfy`
  holds `Option` and `Result`.

The model follows the code where it behaves differently from what its names suggest:

- **Dates.** Days are integers and `new Date()` is an `Instant`: its day, and whether it is past
  midnight. The loop test `on < today` holds for the day of `today` itself whenever the time is
  past midnight. So from a last pull date L the days queried are L+1, ..., T+1, where T is
  today: the day after today is queried too (`TomorrowIsQueried`).
- **Cell 2 is read.** The first account's id is cell 2 of the roster row, because the id of the
  URL in cell i is cell i-1. What is never read is the last cell of a row with an odd number of
  cells (`TrailingIdIgnored`).
- **The tracking dictionary.**
  - The membership test reads cell 1 (the player id), but the read and the write use cell 0
    (the account id).
  - So when cell 1 never names a key, each account keeps the date of its last row, even when
    that date is earlier.
  - A row whose player id is already a key only updates an existing entry to a later date. If
    its account has no entry, it gets none (`PlayerColumnQuirk`).
- **Aliasing.** A cursor taken from the dictionary is the entry's own `Date`, so advancing it
  moves the entry. A second account with the same id in one pass starts where the first one
  ended (`RepeatedAccountResumes`).
- **Undefined cells.** A missing cell or URL fragment used as a key or property value is the
  value `undefined`. Here it is the string `"undefined"` (`Cell`, `Fragment`).

## Model

| member | source | states |
|---|---|---|
| `Text.PadStart` | src/tracker.ts:127 | padding to width 2 keeps the text as a suffix and fills only the front with the fill character, and never shortens |
| `Text.SplitPiecesHaveNoSeparator` | src/delta-sheet.ts:122 | no fragment of a split contains the separator |
| `Text.JoinSplit` | src/delta-sheet.ts:122 | joining the fragments with `/` gives back the URL |
| `Text.SplitJoin` | src/delta-sheet.ts:122 | splitting the join of separator-free pieces gives back those pieces, so fragment k of such a URL is its k-th piece |
| `TrackerModel.Attempts` | src/tracker.ts:82-86 | `FetchWithFallback` and the requests it sends: the HTTP request first, and the browser request if and only if the HTTP one failed |
| `TrackerModel.FallbackUnusedOnSuccess` | src/tracker.ts:82-86 | of `FetchWithFallback`: when the primary succeeds, its value is the outcome whatever the fallback would do |
| `TrackerModel.FallbackErrorPropagates` | src/tracker.ts:107-111 | of `FetchWithFallback`: when both strategies fail, the fallback's error is the fetch's error |
| `TrackerModel.CacheKeysCollide` | src/tracker.ts:77-88 | `CacheKey` (the concatenation used by both caches) gives two different (platform id, platform) pairs the same key; `ProfileUrl` and `HistoryUrl` are the two endpoints |
| `TrackerModel.PaddedMonthValue` | src/tracker.ts:127 | the month field has two digits and reads back as the month number |
| `TrackerModel.DateStringLayout` | src/tracker.ts:126-128 | `DateString`, the history key of a day, is year digits, '-', the two-digit month, '-', the unpadded day digits, then the fixed suffix `T00:00:00+00:00` |
| `TrackerModel.DateStringExample` | src/tracker.ts:126-128 | 8 July 2015 gives `2015-07-8` followed by the suffix: the day is not padded |
| `TrackerModel.DateStringInjective` | src/tracker.ts:126-128 | different valid dates give different day strings |
| `TrackerModel.IndexByDateKeys` | src/tracker.ts:118-120 | `IndexByDate`, one playlist's map: its days are exactly the collect dates of its samples |
| `TrackerModel.IndexByDateLastWins` | src/tracker.ts:118-120 | a day maps to the rating of the last sample collected on it |
| `TrackerModel.IndexSamples` | src/tracker.ts:118-120 | the assignment loop over one playlist's samples builds exactly that map |
| `TrackerModel.ReshapeHistory` | src/tracker.ts:112-121 | the nested loops build both playlist maps, each from its own playlist's samples only |
| `TrackerModel.RatingFromSamples` | src/tracker.ts:130-138 | `RatingOn` (the rating under `DateString` of the date) on a reshaped response is found exactly when the last sample on that day string is non-zero, with that rating; a stored 0 or an absent day reads as none |
| `TrackerModel.RatingFromIndex` | src/tracker.ts:118-120 | `RatingIn` on the map built from the samples, for any day string: found exactly when the last sample collected on that day has a non-zero rating, with that rating, and none for a day no sample carries |
| `TrackerModel.GamesPlayedFirstMatch` | src/tracker.ts:140-150 | `GamesPlayed` is the `matchesPlayed` of the first segment of type `playlist` whose id equals the playlist code, and 0 when there is none |
| `TrackerModel.FindGamesPlayed` | src/tracker.ts:143-149 | the scan with early return computes that first-match count |
| `TrackerModel.Tracker.constructor` | src/tracker.ts:51-52 | both caches start empty and no request has been sent |
| `TrackerModel.Tracker.Fetch` | src/tracker.ts:82-86 | the outcome is the fetch with fallback, and exactly its requests are sent |
| `TrackerModel.Tracker.GetPlayerProfile` | src/tracker.ts:76-91 | a hit returns the cached profile with no request and no change; a miss fetches, stores the profile under its key only on success and changes no other key; the history cache is untouched |
| `TrackerModel.Tracker.GetPlayerProfileID` | src/tracker.ts:93-97 | the player id of the (possibly cached) profile, with the same cache effect |
| `TrackerModel.Tracker.GetPlayerMMRHistory` | src/tracker.ts:99-124 | a hit returns the cached history and changes nothing; a miss goes through the profile lookup, so the profile cache then holds the key, fetches the history of that player id with fallback, and stores the reshaped result only on success; for an account that owns its key the result is `PureHistory` |
| `TrackerModel.Tracker.GetPlayerMMR` | src/tracker.ts:130-138 | `RatingOf` the account's history: the rating under the day string of the date, with none for an absent key or a stored 0; a hit changes nothing; a miss has the profile-cache effect, stores the fetched history only on success, and sends exactly the profile and history requests; for an account that owns its key the result is `PureMMR` |
| `TrackerModel.Tracker.GetPlayerNumGamesPlayed` | src/tracker.ts:140-150 | the first-match games-played count of the account's cached or fetched profile; for an account that owns its key the result is `PureGamesPlayed` |
| `TrackerModel.ProfileIsMemoized` | src/tracker.ts:76-79 | the first lookup gives the cached profile or the fetched one; asking again gives the same result, and once the first succeeds the requests sent in total are those of the first lookup alone: none on a hit, one fetch with fallback on a miss |
| `TrackerModel.CollidingAccountsShareProfile` | src/tracker.ts:77-88 | an account whose key collides with an earlier one gets the earlier account's profile, with no request of its own |
| `DeltaSheetModel.PlayerRows` | src/delta-sheet.ts:113-115 | every kept row has a non-empty cell 1 |
| `DeltaSheetModel.PlayerRowsMembers` | src/delta-sheet.ts:113-115 | a row is kept if and only if it is a roster row whose cell 1 is present and non-empty |
| `DeltaSheetModel.PlayerRowsAppend` | src/delta-sheet.ts:113-115 | the filter keeps the original order: the rows kept from two blocks are those of the first, then those of the second |
| `DeltaSheetModel.ParsePlayer` | src/delta-sheet.ts:116-135 | the stepped loop builds the player of cells 0 and 1 with the accounts of cells 3, 5, 7, ... |
| `DeltaSheetModel.GetPlayers` | src/delta-sheet.ts:111-139 | the players are the filtered rows, in order, each mapped to its player |
| `DeltaSheetModel.AccountsCount` | src/delta-sheet.ts:121 | a row yields one account per odd index from 3 below its length |
| `DeltaSheetModel.AccountAt` | src/delta-sheet.ts:121-133 | `AccountsFrom` with `ParseAccount`: the k-th account comes from URL cell 3+2k and id cell 2+2k |
| `DeltaSheetModel.PlayersLayout` | src/delta-sheet.ts:113-136 | player j has the id and non-empty name of kept row j, (n-2)/2 accounts for n > 3 cells and none otherwise, and account k from cells 3+2k and 2+2k |
| `DeltaSheetModel.TrailingIdIgnored` | src/delta-sheet.ts:121-127 | the last cell of an odd-length row does not affect the player |
| `DeltaSheetModel.ParseShortProfileUrl` | src/delta-sheet.ts:122-131 | for `scheme//host/profile/platform/id/...`, fragment 3 is `profile` and the account gets that platform and id |
| `DeltaSheetModel.ParseLongProfileUrl` | src/delta-sheet.ts:122-131 | for `scheme//host/section/x/platform/id/...` with another section, the account gets the platform and id at fragments 5 and 6 |
| `DeltaSheetModel.TrackRow` | src/delta-sheet.ts:145-153 | one iteration changes only the entry of cell 0, which becomes the row's date or stays; when cell 1 is a key a valid entry never moves back and a missing one is not created; when it is not, the entry is overwritten by the row's date |
| `DeltaSheetModel.TrackingKeys` | src/delta-sheet.ts:141-155 | every key of `Tracking`, the dictionary after the rows, is the account cell of some tracking row |
| `DeltaSheetModel.TrackingLastRowWins` | src/delta-sheet.ts:144-154 | when no player cell names a key, each account maps to the date of its last row |
| `DeltaSheetModel.PlayerColumnQuirk` | src/delta-sheet.ts:145-149 | with the test on the player cell a later row with an earlier date wins, while a test on the account cell would keep the later date; and an account whose player id is already a key gets no entry |
| `DeltaSheetModel.Sheet.PopulateLastTrackedData` | src/delta-sheet.ts:141-155 | the dictionary is rebuilt from empty, row by row, as `Tracking` of the rows |
| `DeltaSheetModel.Sheet.LastPullDateForLinkID` | src/delta-sheet.ts:157-159 | the entry for the account id, and nothing exactly when there is none |
| `DeltaSheetModel.LastPullDateAfterPopulate` | src/delta-sheet.ts:141-159 | after populating, an account with no row has no pull date, and with distinct columns an account's pull date is that of its last row |
| `DeltaSheetModel.RowCellsDropOnlyName` | src/delta-sheet.ts:162-173 | `RowCells` gives two output rows the same cells if and only if they differ at most in the player name |
| `DeltaSheetModel.InsertRangeRow` | src/delta-sheet.ts:175-176 | `InsertRange` is `Daily Tracking!C`, then digits that read back as the existing row count plus one, then `:I` |
| `DeltaSheetModel.InsertHistoryRows` | src/delta-sheet.ts:161-176 | one entry per row, in order, each its seven cells, sent to the range after the existing rows |
| `SyncDriver.Before` | src/main.ts:60 | a cursor is before now exactly when it is a valid date on a day below the bound: today, or tomorrow once today's midnight has passed |
| `SyncDriver.DayOutcomes` | src/main.ts:62-77 | `Day`: a day fails exactly when a query throws; otherwise it is skipped exactly when both ratings are null, and else it gives a row with the player's id and name, the account id, the day's local date and the four answers, a null rating kept as it is |
| `SyncDriver.QueryDay` | src/main.ts:62-77 | the four queries in order, each only after the previous one answered, give the day's outcome |
| `SyncDriver.RunDaysStep` | src/main.ts:60-78 | a run whose first day does not fail is that day's row, if any, followed by the run from that day |
| `SyncDriver.RunDaysConsecutive` | src/main.ts:60-61 | in `RunDays`, the cursor loop, the days queried are start+1, start+2, ... in order, each once, up to the final cursor |
| `SyncDriver.RunDaysEnd` | src/main.ts:60-81 | the loop ends at the bound, at once when the start is not below it, or early exactly on the first day whose queries throw, and no earlier day failed |
| `SyncDriver.RunDaysRows` | src/main.ts:66-77 | the rows are the emitted rows of the days queried, in order, so rows from before a failure are kept |
| `SyncDriver.RunDaysAllAnswered` | src/main.ts:60-78 | when every day up to the bound answers, exactly the days start+1 .. bound are queried and their emitted rows are the rows |
| `SyncDriver.RunRowsShape` | src/main.ts:63-77 | every row has at least one rating, the player's and the account's ids and the player's name, and the same games-played counts on every day |
| `SyncDriver.AccountSyncShape` | src/main.ts:56-61 | `AccountSync`: an account with no entry starts at the launch date and leaves the dictionary as it was; an invalid start gives nothing; otherwise the rows are those of the days queried, and the account's own entry moves to the last day queried |
| `SyncDriver.TomorrowIsQueried` | src/main.ts:60-61 | an account pulled up to today queries the day after today once now is past midnight, and its entry moves to that day |
| `SyncDriver.RepeatedAccountResumes` | src/main.ts:56-61 | in `AccountsSync`, which runs a player's accounts in turn on the dictionary each leaves, a second account with the same id starts where the first one ended and, once the first answered up to now, yields no rows |
| `SyncDriver.BatchesKeepRows` | src/main.ts:83-90 | `Batches` of the per-player rows (`PlayersSync`): the written batches then the final buffer are all rows, player by player, with none lost, repeated or reordered |
| `SyncDriver.BatchesCount` | src/main.ts:86 | n players give (n+19)/20 writes |
| `SyncDriver.BatchContents` | src/main.ts:83-87 | write k exists once player 20k has run and holds exactly the rows of players 20(k-1)+1 to 20k in order, player 0 alone in write 0 |
| `SyncDriver.BatchesBuffer` | src/main.ts:86-91 | the final buffer holds the rows of the players after the last multiple of 20; they are never written |
| `SyncDriver.BatchesWritten` | src/main.ts:86-91 | the writes hold exactly the rows of the players up to the last multiple of 20 |
| `SyncDriver.SyncAccount` | src/main.ts:54-81 | the cursor loop of one account gives its rows and moves its dictionary entry, when the cursor came from there |
| `SyncDriver.SyncPlayer` | src/main.ts:52-83 | the accounts of a player in turn, a failure ending only its own account |
| `SyncDriver.Sync` | src/main.ts:42-91 | the player loop writes the batches of `Pass`, leaves its buffer unwritten, and leaves the dictionary as the accounts moved it |
| `SyncDriver.Run` | src/main.ts:24-91 | the program's writes are the pass over the players of the roster rows, with the dictionary built from the tracking rows |
| `SyncDriver.TrackerAnswers` | src/main.ts:62-65 | when the engine's fetches succeed, the queries answer the history's rating and the profile's first-match games-played count |
| `SyncDriver.TrackerDay` | src/main.ts:62-68 | when the engine's fetches succeed, a day never fails, and it gives a row exactly when one playlist has a non-zero rating under the day string, with those ratings and counts |

## Left out

- The OAuth flow, the token file, the Sheets API client and `getSheetData`
  (src/delta-sheet.ts:31-109) are I/O. The roster rows, the tracking rows and the existing row
  count are inputs here. The `values.update` call is the `UpdateRequest` value it would send.
- `SyncDriver.Run` returns the row batches. It does not compute each batch's
  `UpdateRequest`, because that needs a fresh read of column C before every write.
- A failing sheet read or write, or a throw outside the per-account catch, would end the
  process. Sheet I/O never fails in the model.
- `fetchAxios`, `fetchPuppeteer` and `initBrowser` (src/tracker.ts:55-74) are network and
  browser code. Each is a function-typed parameter that gives a response or an error.
  `JSON.parse` is left out too: responses are already structured, and profiles carry only the
  fields the code reads.
- JavaScript `Date` is replaced by `DateLibrary`.
  - Parsing text, local calendar fields and `toLocaleDateString` are parameters.
  - `setDate(getDate() + 1)` is the next day number.
  - `setHours(0, 0, 0)` in `getPlayerMMR` is a no-op at day granularity.
  - Parsed pull dates are taken at local midnight. Times within a day are not modelled, apart
    from whether now is past midnight.
- The `./ballchasing` module is not part of this model. The driver takes its two queries as
  `Oracles` with the engine's signatures, evaluated as pure functions. So the engine's cache
  state, and with it the key-collision effect, is not carried across one pass. The `Tracker`
  class covers that effect separately.
- The progress bar, dotenv, console logging and `exit` (src/main.ts:3-9, 37-41, 84, 88, 93) do
  not affect the data.
- async/await is modelled as sequential calls.
- The caches and the tracking dictionary are plain JavaScript objects. Their inherited
  properties (a key such as `constructor` answers `in`) are not modelled: they are maps.
- `playlistId` is a number, so the loose `==` against the enum string compares it with 11 or 13.
  Other values a JSON payload could carry there are not modelled.

