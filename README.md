# NewChain Detector — reconciliation engine in Dafny

This project models the core of NewChain Detector. The detector polls an HTTP
API for the list of blockchain "chains". It reconciles each fetched list
against a local SQLite table keyed by chain id and announces the chains it has
not seen before on Telegram.

The model covers the following, one module per source file:

- **`ChainTypes`, `ConfigTypes`** (`types.dfy`): the records the program passes around.
- **`Database`** (`database.dfy`): the chain table and the service that reads and writes it.
  - The table is a `map` from chain id to row. The UNIQUE constraint on `chain` is a guard in `Save`.
  - A write-failure oracle `faulty` names the ids whose writes the engine rejects.
  - A closed connection makes every call fail.
- **`Detector`** (`detector.dfy`): the reconciliation pass. It reads the id set, saves the new entries, then updates every stored entry.
  - `Process` is the specification function of one pass.
  - The `ChainDetectorService` methods are proved against it.
- **`Api`** (`api.dfy`): the response-shape check and the retry loop with capped exponential backoff.
  - Attempt `a` of a fetch yields `network(a)`.
- **`Telegram`** (`telegram.dfy`):
  - What the notifier sends, in which order, with which pauses, and which failures it reports or swallows.
  - The `/ping` handler, with its time and uptime formatting.
  - The bot API is an oracle `rejections`: send attempt `k` fails with `rejections[k]`.
- **`Config`** (`config.dfy`): validation of the environment and the configuration built from it, with its defaults.
- **`Application`** (`app.dfy`): one check cycle (fetch, reconcile, notify or report) and the start/stop lifecycle, with silent mode.
- **Helpers:**
  - `Text` (`text.dfy`): decimal rendering and `parseInt`.
  - `Json` (`json.dfy`): `JSON.stringify`/`JSON.parse` on string lists.
  - `Wrappers` (`wrappers.dfy`): `Option`, `Result`, `Outcome`.

Clock readings are parameters (`now`, `updatedAt`, milliseconds as `int`).
Exceptions are `Result`/`Outcome` values. Each state-changing service is a
`class`, with its state exposed as a value (`Snapshot()`, `log`) so its
methods can be stated against specification functions.

Where the code and its written description disagree, this model follows the
code:

- `processChains` returns every detection, including one whose save threw.
- `app.ts` never calls `setStatsCallback`, so in the running application `/ping` is never answered.

## Model

| member | source | states |
|---|---|---|
| Text.ParseIntToString | src/config/config.ts:36 | `parseInt` reads back every rendered integer, so the default "10000" parses to 10000 |
| Json.ParseStringify | src/services/database.service.ts:224 | `JSON.parse(JSON.stringify(rpcs))` gives the RPC list back, escapes included |
| Database.StoredExplorer | src/services/database.service.ts:96 | an absent or empty explorer is stored as NULL; any other value is stored unchanged |
| Database.RowRoundTrip | src/services/database.service.ts:204-229 | reading a written row gives the chain back, with its flags and RPC list, the row id and the timestamps; an empty explorer comes back as NULL |
| Database.SaveWellFormed | src/services/database.service.ts:63-102 | a save keeps the table well formed: rows keyed by chain id, distinct ids below the next AUTOINCREMENT value, parseable `rpcs` |
| Database.UpdateWellFormed | src/services/database.service.ts:107-157 | an update keeps the table well formed |
| Database.SaveEffect | src/services/database.service.ts:63-102 | saving a new id whose write succeeds adds exactly that row; it reads back with `createdAt == updatedAt == now` and the next id, and every other row is kept; saving any stored id is refused by the UNIQUE constraint and changes nothing; a failed write changes nothing |
| Database.UpdateEffect | src/services/database.service.ts:107-157 | an update rewrites the matching row's fields and `updatedAt`, and keeps its id, its `createdAt` and the other rows; with no matching row it succeeds and changes nothing; the id set never changes |
| Database.LookupsAgree | src/services/database.service.ts:162-199 | on an open table, `chainExists`, `getChainById` and membership in `getAllChainIds` agree, and `getChainById` returns the record of that id |
| Database.InsertNewest | src/services/database.service.ts:186 | inserting a record into a list ordered newest first keeps the order and adds exactly that record |
| Database.DatabaseService.constructor | src/services/database.service.ts:12-28 | opening the database file gives an open connection to the table the file already holds (empty for a new file), rows and AUTOINCREMENT counter kept |
| Database.DatabaseService.SaveChain | src/services/database.service.ts:63-102 | the new table and the outcome are those of `Save`: checked in the order closed connection, UNIQUE violation, write failure, then insert |
| Database.DatabaseService.UpdateChain | src/services/database.service.ts:107-157 | the new table and the outcome are those of `Update`: a closed connection fails, an unmatched id is a no-op, a failed write leaves the row |
| Database.DatabaseService.GetAllChainIds | src/services/database.service.ts:162-166 | the stored ids, or the connection error once closed |
| Database.DatabaseService.GetChainById | src/services/database.service.ts:171-180 | null iff the id is not stored; otherwise the mapped record of that row; the connection error once closed |
| Database.DatabaseService.GetAllChains | src/services/database.service.ts:185-190 | every row's record exactly once, ordered newest `createdAt` first; the connection error once closed |
| Database.ListRows | src/services/database.service.ts:185-190 | the rows read back as their records, each exactly once, newest `createdAt` first |
| Database.DatabaseService.ChainExists | src/services/database.service.ts:195-199 | true iff the id is stored; the connection error once closed |
| Database.DatabaseService.Close | src/services/database.service.ts:234-236 | the connection is closed and the rows are unchanged |
| Detector.Partition | src/services/chain-detector.service.ts:13-27 | the new and the already stored entries of a batch split it exactly: a multiset union, sizes adding up, membership iff the id is absent or present |
| Detector.NothingNew | src/services/chain-detector.service.ts:13-27 | when every batch id is stored, nothing is detected |
| Detector.SaveAllEffect | src/services/chain-detector.service.ts:32-46 | the save loop adds exactly the ids whose writes do not fail; existing rows are untouched; a failed save stops nothing |
| Detector.UpdateAllKeeps | src/services/chain-detector.service.ts:51-66 | the update loop never adds or removes an id and keeps each row's id and `createdAt` |
| Detector.UpdateAllFrame | src/services/chain-detector.service.ts:51-66 | the update loop leaves every row whose id no batch entry carries exactly as it was |
| Detector.UpdateAllLast | src/services/chain-detector.service.ts:51-66 | a stored id's row ends up holding the last batch entry with that id, stamped with the update time |
| Detector.ProcessFailsOnlyWhenClosed | src/services/chain-detector.service.ts:71-85 | `processChains` throws iff the connection is closed, and then changes nothing |
| Detector.DetectionsIgnoreWrites | src/services/chain-detector.service.ts:73-84 | the returned detections are exactly the batch entries absent at the start of the call, in batch order, whichever saves fail |
| Detector.ProcessStores | src/services/chain-detector.service.ts:71-85 | after a pass the ids are the old ones plus every batch id whose write succeeds; no id is removed; old rows keep id and `createdAt` |
| Detector.ProcessFrame | src/services/chain-detector.service.ts:32-66 | `processChains` leaves every stored row whose id is absent from the batch exactly as it was, all fields included |
| Detector.ProcessUpdatesEveryStoredEntry | src/services/chain-detector.service.ts:51-66 | every batch entry whose write succeeds is rewritten by the update pass, including one inserted in the same call, with the update time |
| Detector.ProcessTwice | src/services/chain-detector.service.ts:14-18 | after a pass whose writes all succeed, a second pass over the same batch detects nothing and stores no new id |
| Detector.DuplicateIdInBatch | src/services/chain-detector.service.ts:17-22 | worked case of the batch `[c1, c2]` with one unseen id: both entries are detected, only the first save succeeds, and the row ends up holding the second entry |
| Detector.DuplicateSaves | src/services/chain-detector.service.ts:32-46 | worked case of two detections with one unseen id: the second save is refused and the row keeps the first entry |
| Detector.FirstSaveWins | src/services/chain-detector.service.ts:32-46 | for any list of detections: the first detection of an unseen id whose write succeeds is saved, and its row holds that entry at the end of the save loop |
| Detector.LaterSavesRefused | src/services/database.service.ts:30 | for any list of detections: every later save of an id the loop has already stored fails with the UNIQUE violation and changes nothing |
| Detector.DuplicateUpdates | src/services/chain-detector.service.ts:51-66 | with a duplicated stored id, both entries are written in turn and the last one wins |
| Detector.ChainDetectorService.DetectNewChains | src/services/chain-detector.service.ts:13-27 | the batch entries whose id is not stored, in batch order, stamped with the detection time; the connection error once closed |
| Detector.ChainDetectorService.ProcessNewChains | src/services/chain-detector.service.ts:32-46 | the table becomes the result of saving each detection in turn, failures skipped |
| Detector.ChainDetectorService.UpdateExistingChains | src/services/chain-detector.service.ts:51-66 | the table becomes the result of updating every batch entry in the fresh id snapshot, in order; the connection error once closed |
| Detector.ChainDetectorService.ProcessChains | src/services/chain-detector.service.ts:71-85 | the new table and the result are those of `Process`: detect, save, re-read ids, update, return the detections |
| Api.FetchChains | src/services/api.service.ts:24-41 | succeeds iff the response has `data` and `data.chains`, returning those chains; a malformed response gives "Invalid API response format"; a request error gives "API request failed: ..." |
| Api.Backoff | src/services/api.service.ts:56-59 | every wait is between 1000 and 10000 ms |
| Api.BackoffSchedule | src/services/api.service.ts:56-59 | the waits double from 1000 ms (1000, 2000, 4000, 8000) and are 10000 ms from the fifth attempt on |
| Api.DefaultWaits | src/services/api.service.ts:46-67 | with the default three attempts failing, the loop waits 1000 ms then 2000 ms |
| Api.FetchChainsWithRetry | src/services/api.service.ts:46-67 | at most `maxRetries` attempts; the first success is returned at once; after that many failures the error names `maxRetries` and the last failure's message ("undefined" if none); one backoff wait between consecutive attempts, none after the last |
| Telegram.TimeAgo | src/services/telegram.service.ts:126-138 | the unit is seconds, minutes, hours or days exactly on the ranges below 60 s, below 1 h, below 1 day, and beyond; the number is the elapsed time rounded down in that unit |
| Telegram.FormatTimeAgo | src/services/telegram.service.ts:126-138 | the text always ends in " ago" |
| Telegram.UptimeParts | src/services/telegram.service.ts:63-65 | minutes and seconds lie in 0..59 and `3600 h + 60 m + s` equals the uptime |
| Telegram.StatusOf | src/services/telegram.service.ts:62-71 | the last scan shows "Never" iff there was none, otherwise the time-ago text; the uptime parts add up to the uptime |
| Telegram.NotifySends | src/services/telegram.service.ts:166-197 | a summary is attempted iff there is more than one chain, then exactly one message per chain in list order, whatever fails; an empty list sends nothing |
| Telegram.NotifyPauses | src/services/telegram.service.ts:184-196 | each pause is 1000 ms and follows a delivered chain message; a chain message not sent last is followed by a pause iff it was delivered; nothing ends with a pause |
| Telegram.TelegramService.constructor | src/services/telegram.service.ts:23-27 | a new service has sent nothing and has no stats callback |
| Telegram.TelegramService.SetStatsCallback | src/services/telegram.service.ts:32-34 | the stats callback is set and nothing is sent |
| Telegram.TelegramService.HandlePing | src/services/telegram.service.ts:41-96 | without a stats callback nothing is sent; with one, a single status message is sent, computed from the stats at that moment |
| Telegram.TelegramService.NotifyNewChain | src/services/telegram.service.ts:150-161 | one send attempt; its failure is reported wrapped as "Failed to send Telegram notification: ..." |
| Telegram.TelegramService.NotifyNewChains | src/services/telegram.service.ts:166-197 | the events are exactly `NotifyEvents`: an optional summary, then one send per chain with the pause rule; no failure escapes |
| Telegram.TelegramService.SendEach | src/services/telegram.service.ts:184-196 | the per-chain loop appends exactly the events of `ChainLoop` |
| Telegram.TelegramService.SendTestMessage | src/services/telegram.service.ts:230-238 | one send attempt; its failure is reported wrapped as "Failed to send test message: ..." |
| Telegram.TelegramService.NotifyError | src/services/telegram.service.ts:243-259 | one send attempt of the error text; its own failure is swallowed |
| Config.OrDefault | src/config/config.ts:36-39 | an unset or empty variable falls back to the default, any other value is taken as is |
| Config.Missing | src/config/config.ts:12 | the missing list holds exactly the unset or empty keys among those required |
| Config.MissingRequired | src/config/config.ts:11-12 | the missing keys appear in the order TELEGRAM_BOT_TOKEN, TELEGRAM_CHAT_ID, API_URL |
| Config.ValidateEnv | src/config/config.ts:10-19 | fails iff one of the three required variables is unset or empty, with a message listing the missing ones |
| Config.GetConfig | src/config/config.ts:24-43 | no configuration while a required variable is missing; the Telegram and API fields are the variables' values; the interval is `parseInt` of POLLING_INTERVAL or "10000"; the path is DATABASE_PATH or "./data/chains.db"; silent mode iff SILENT_MODE is exactly "true" |
| Config.DefaultPolling | src/config/config.ts:36 | with POLLING_INTERVAL unset or empty, the interval is 10000 ms |
| Application.App.constructor | src/app.ts:23-35 | a new application is not running, has no timer, an open connection to the table its database file holds, and an empty Telegram log |
| Application.App.CheckForNewChains | src/app.ts:122-155 | the table and the sends are those of `Cycle`: fetch with three attempts; on failure report it, unless silent, without reconciling; otherwise reconcile; report a store error unless silent, or announce the detections when there are some and silent mode is off |
| Application.App.Start | src/app.ts:40-86 | a no-op while running; otherwise running, with the test message unless silent (its failure ignored), then one cycle, then the polling timer armed |
| Application.App.Greet | src/app.ts:56-64 | the test message is attempted exactly when silent mode is off |
| Application.App.Stop | src/app.ts:91-108 | a no-op unless running; otherwise the timer is cleared, the table closed and the application marked stopped |
| Application.SilentSendsNothing | src/app.ts:133-154 | in silent mode a cycle sends nothing |
| Application.FetchFailureReported | src/app.ts:126-154 | a failed fetch leaves the table as it was and is reported once unless silent |
| Application.ClosedStoreReported | src/app.ts:131-154 | on a closed table the cycle changes nothing and reports the connection error once unless silent |
| Application.CycleAnnouncesNewChains | src/app.ts:131-143 | outside silent mode, a cycle announces exactly the fetched chains absent from the table, in fetch order, with a summary first when there are several |
| Application.NotificationsLeaveStore | src/app.ts:131-139 | the table after a cycle is the table after `processChains`: Telegram plays no part in it |
| Application.SecondCycleQuiet | src/app.ts:122-155 | two cycles fetching the same list, the first with all writes succeeding: the second announces nothing and stores no new id |

## Left out

- SQLite itself is not modelled: SQL text, directory creation, schema and index setup. The table is a map, and the UNIQUE rejection is the only engine behaviour kept; other write failures come from the `faulty` oracle.
- Reading the database file is left out. Its table is the `stored` parameter of the constructors, taken to satisfy the table's constraints: UNIQUE chain ids below the AUTOINCREMENT counter, and parseable `rpcs`.
- A read can fail only because the connection is closed. Other read errors of the engine are not modelled.
- Timestamps are integers of milliseconds, not ISO-8601 strings. `ORDER BY createdAt DESC` compares them as numbers, and rows with equal `createdAt` may come back in any order.
- Each phase of a pass reads the clock once: detections and saves share `now`, and updates share `updatedAt`. The source reads the clock on every call.
- Json.Parse and Json.Stringify escape only `"` and `\`. JSON's escapes for control characters, and JSON text other than a list of strings, are not modelled.
- Text.ParseInt does not skip leading whitespace as `parseInt` does. A string with no leading digits gives `None`, standing for NaN.
- Floating-point values are opaque or integral:
  - `price` and the limits are never computed on.
  - `process.uptime()` is whole seconds.
  - The scan interval shown by `/ping` is the millisecond value, not divided by 1000.
- The HTML bodies of messages are not modelled; messages are identified by kind and content: `formatChainMessage`, `toLocaleString`, the `/start` reply.
- Network I/O and the bot API are oracles:
  - The HTTP client is the `network` function.
  - The Telegram bot is the `rejections` map.
  - The bot's command registration, `stopPolling`, and which chat a reply goes to are left out.
- `setInterval` and async timing are left out. Each `CheckForNewChains` call is one tick; overlapping ticks are concurrency and are not modelled.
- The catch-and-rethrow around `start` (src/app.ts:76-85) is unreachable: `checkForNewChains` catches everything, and so do `notifyNewChains` and the test-message guard. `Start` therefore always completes normally.
- Logging is left out. So are `index.ts`, `init.ts` and the `dotenv` side effect; these only compose the modelled operations with process I/O.
- Telegram.TelegramService.HandlePing takes the values the stats callback would return as a parameter. The server time line of the reply is not modelled.
