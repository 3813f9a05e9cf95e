# SteamDatabaseBackend change tracker, in Dafny

This project models the change-tracking core of SteamDatabaseBackend: the `Steam` class of
`Steam.cs`. That class keeps a session to Steam alive through connect, login and reconnect,
and polls the PICS changes-since feed. It does this either once, as a full run, or on a
one-second timer. It records every changelist and every app or package the changelist
touched in MySQL. It routes each product-info reply either to the IRC request that asked
for it or to the per-entity processors.

Side effects are reified:
- Every session call the modelled handlers make, and every timer operation, sleep and
  spawned work unit, becomes a `Command` appended to a log.
- The three tables the class writes (`Changelists`, `ChangelistsApps`, `ChangelistsSubs`)
  are kept as values. A clock stands in for `CURRENT_TIMESTAMP()`.

Files:
- `Types.dfy`: callback payloads, configuration (`FullRun` setting 0/1/2, credentials), commands.
- `Datastore.dfy`: the tables. It has one function per SQL statement the class issues, with
  its MySQL meaning (upsert that refreshes the date, upsert that keeps it, insert-ignore).
  The `Database` class executes those statements.
- `Requests.dfy`: the list of pending IRC product-info requests. `Find` by job ID and
  `Remove` of the found entry.
- `Handlers.dfy`: every handler as a function from the state before to the state after. The
  state is the class fields, the tables and the log. `Replay` feeds a sequence of callbacks
  through the handlers the way the callback loop delivers them.
- `Steam.dfy`: class `Steam`. Its fields are `previousChange`, `fullRun`, `isRunning`, the
  timer, the pending requests and the log. It has one method per handler, proved to leave
  the object in the state the matching `Handlers` function gives. The foreach loops over
  changed entities and over reply entries are loops here.
- `Properties.dfy`: lemmas about the handlers. They cover single-callback promises and
  promises about whole runs of callbacks: the full-run latch fires at most once, and late
  diffs are discarded.

Four points of the code's behaviour that are easy to misread:
- `Steam.cs:246` resets the polled changelist's date to the current time on every write,
  so the last write's time is kept.
- Entity touch rows carry the entity's own change number (`Steam.cs:265`, `Steam.cs:280`),
  which may differ from the polled one.
- The baseline is looked up once, in `Run` before connecting (`Steam.cs:98`). A later
  login keeps it.
- The baseline is the largest stored `ChangeID` (`ORDER BY ChangeID DESC`), whatever the
  dates of the rows.

## Model

| member | source | states |
|---|---|---|
| `Datastore.UpsertChangelist` | Steam.cs:246 | the polled changelist's row exists afterwards and carries the current time, whether or not it existed; no other row or table changes |
| `Datastore.InsertChangelistKeepingDate` | Steam.cs:259 | a missing row is added with the current time; every existing row keeps its date |
| `Datastore.InsertIgnoreTouch` | Steam.cs:264-267 | the (change, ID) row is in the touch table of that kind afterwards; the other touch table and Changelists are unchanged |
| `Datastore.MaxOf` | Steam.cs:50 | the result is an element of the set and no element is larger |
| `Datastore.Database.LatestChangeId` | Steam.cs:50-58 | None exactly when Changelists is empty; otherwise a stored ChangeID that no stored ChangeID exceeds |
| `Datastore.Database.UpsertChangelistRow` | Steam.cs:246 | executes the refreshing upsert: new tables are `UpsertChangelist` of the old |
| `Datastore.Database.InsertChangelistRow` | Steam.cs:259 | executes the date-keeping upsert: new tables are `InsertChangelistKeepingDate` of the old |
| `Datastore.Database.InsertTouchRow` | Steam.cs:279-282 | executes the insert-ignore: new tables are `InsertIgnoreTouch` of the old |
| `Requests.IndexOfJob` | Steam.cs:291 | None exactly when no pending request has the job; otherwise the first position holding it |
| `Requests.RemoveAt` | Steam.cs:295 | exactly the entry at the found position leaves (one fewer element, multiset minus that one job); every other entry stays, in order |
| `Backend.Steam.constructor` | Steam.cs:28-33 | a new tracker: baseline 0, no full run, running, timer stopped, no pending requests, empty log |
| `Backend.Steam.GetPICSChanges` | Steam.cs:35-38 | appends one changes-since request from the current baseline; nothing else changes |
| `Backend.Steam.GetLastChangeNumber` | Steam.cs:40-65 | leaves the object in the state `Handlers.GetLastChangeNumber` gives (see `BaselineSelection`) |
| `Backend.Steam.Start` | Steam.cs:98-100 | picks the baseline, then issues one Connect |
| `Backend.Steam.OnTimer` | Steam.cs:108-111 | a timer tick polls for changes since the baseline |
| `Backend.Steam.OnConnected` | Steam.cs:113-129 | returns CouldNotConnect for a non-OK result and Continue for OK; the state is that of `Handlers.OnConnected` (see `ConnectResult`) |
| `Backend.Steam.OnDisconnected` | Steam.cs:131-150 | the state is that of `Handlers.OnDisconnected` (see `DisconnectReconnects`) |
| `Backend.Steam.OnLoggedOn` | Steam.cs:152-193 | the state is that of `Handlers.OnLoggedOn` (see the three login lemmas) |
| `Backend.Steam.PersistEntities` | Steam.cs:253-284 | the loop over one dictionary of changes leaves the tables as `RecordEntries` of the old ones (see `RecordEntriesTouches`, `RecordEntriesChangelists`) |
| `Backend.Steam.OnPICSChanges` | Steam.cs:212-287 | the state is that of `Handlers.OnPICSChanges` (see `FullRunDiff`, `DuplicateDiffIsNoOp`, `NewDiff`, `EntityWrites`) |
| `Backend.QueueWork` | Steam.cs:305-315 | one foreach of the dispatch: the queued units are exactly `MapCommands` of the elements, one per element in order |
| `Backend.Steam.OnPICSProductInfo` | Steam.cs:289-347 | the state is that of `Handlers.OnPICSProductInfo` (see `ProductInfoRouting`, `BulkDispatchCoversReply`, `BulkDispatchOnlyWork`) |
| `Properties.BaselineSelection` | Steam.cs:43-58 | with FullRun > 0 and no full run yet the baseline is 1; otherwise it is the largest stored ChangeID, or unchanged when none is stored; nothing else changes |
| `Properties.ConnectResult` | Steam.cs:115-128 | a non-OK connect ends in the connection error with the state unchanged (no LogOn); an OK connect appends exactly one LogOn with the configured credentials |
| `Properties.DisconnectReconnects` | Steam.cs:131-150 | the timer is always stopped; not running: only StopTimer; running: StopTimer, then one Sleep(15), then one Connect; nothing else changes |
| `Properties.LoginFailureIssuesNothing` | Steam.cs:154-163 | a failed login leaves baseline, latch and timer as they were and issues only the two-second pause |
| `Properties.LoginLatched` | Steam.cs:171-175 | once the full run has started, a successful login changes nothing at all |
| `Properties.LoginArmsPoller` | Steam.cs:177-188 | before the latch is set: FullRun > 0 sets it and issues exactly one changes request from the baseline; FullRun = 0 starts the timer instead |
| `Properties.FullRunDiff` | Steam.cs:214-231 | in a full run no diff writes to the datastore; baseline 1 becomes 2 with exactly one product-info request for exactly the diff's app and package keys; any other baseline leaves the state untouched |
| `Properties.DuplicateDiffIsNoOp` | Steam.cs:232-235 | outside a full run, a diff whose change number equals the baseline changes no field, no table and issues nothing |
| `Properties.RedeliveredDiffIsNoOp` | Steam.cs:212-237 | handling the same diff twice in a row gives the same state as handling it once, in every mode |
| `Properties.RecordEntriesTouches` | Steam.cs:264-267 | after the per-entity loop the touch table of that kind holds exactly the old rows plus (own change number, ID) of every entry; the other touch table is unchanged |
| `Properties.RecordEntriesChangelists` | Steam.cs:257-260 | after the per-entity loop Changelists gains exactly the entry change numbers that differ from the polled one; no existing date changes; new rows are dated now |
| `Properties.RecordEntriesIdempotent` | Steam.cs:255-283 | running the per-entity writes a second time leaves the tables as they were after the first |
| `Properties.NewDiff` | Steam.cs:237-251 | a new incremental diff makes its change number the baseline and dates its row now whether or not the row existed; an empty diff writes nothing else and issues only the announcement; a non-empty one ends with exactly one product-info request for exactly its keys |
| `Properties.EntityWrites` | Steam.cs:253-286 | for a non-empty new diff: every app's and package's (own change number, ID) row is in its touch table; Changelists gains the polled number and every differing entity number; no other existing row's date changes |
| `Properties.BulkDispatchCoversReply` | Steam.cs:305-346 | an unclaimed reply becomes, in order, one ProcessApp per app, one ProcessSub per package and, unless FullRun is 1, one ProcessUnknownApp per unknown app, each carrying that entry's ID and payload; the length is exactly that sum |
| `Properties.BulkDispatchOnlyWork` | Steam.cs:305-346 | every command of the bulk dispatch is a processor work unit; with FullRun 1 none is for an unknown app; unknown packages get none |
| `Properties.ProductInfoRouting` | Steam.cs:291-303 | a reply whose job is pending removes exactly the first such entry, keeps the rest in order and issues only RouteToRequest, with no work unit; otherwise the list is unchanged and the reply is dispatched in bulk |
| `Properties.FullRunStepDiscards` | Steam.cs:214-231 | once the full-run request is out, no single callback moves the baseline, clears the latch, writes to the datastore or issues a product-info request |
| `Properties.LateDiffsDiscarded` | Steam.cs:214-231 | the same holds for every sequence of callbacks: no later diff is ever processed |
| `Properties.RepliesIssueNoChangesRequest` | Steam.cs:212-347 | neither kind of reply issues a changes request, starts the timer or touches the latch |
| `Properties.ArmingStep` | Steam.cs:171-186 | with FullRun configured and the timer stopped, one callback keeps the timer stopped and the latch set, and adds a changes request only when it sets the latch |
| `Properties.ChangesRequestedAtMostOnce` | Steam.cs:171-186 | with FullRun configured, over any sequence of connects, logins, disconnects and replies, at most one changes request is issued, and none once the latch is set |

## Left out

- SteamKit2 construction and callback registration (`Steam.cs:69-97`) are not modelled. The
  `RunWaitCallbacks` loop (`Steam.cs:102-105`) appears only as `Handlers.Replay`, which
  delivers one callback at a time. A failed connect ends that loop, as the exception does.
- `OnAccountInfo`, `OnLoggedOff`, `OnGameCoordinatorMessage`, `SteamProxy.PlayGame` and the
  `#if DEBUG` product-info request (`Steam.cs:187`, `Steam.cs:190-192`) are side features.
  They make session calls the log does not record: the persona state (`Steam.cs:204`),
  `PlayGame` and the debug-only `PICSGetProductInfo(440, 29197)`. The reply to that debug
  request would arrive unclaimed and be dispatched in bulk. None of them changes the
  fields or the tables.
- IRC announcements and log lines are notification side effects only. They include the
  warning about an empty Changelists table and the one about unknown packages. The
  exception's message text is also left out. The spawned `ircSteam.OnPICSChanges` task is
  kept as the `AnnounceChanges` command.
- The `UPDATE Apps/Subs SET LastUpdated` statements (`Steam.cs:262`, `Steam.cs:277`) are
  not modelled. They write tables this model does not represent.
- Concurrency is not modelled:
  - The tasks of `Task.Factory.StartNew` and `ThreadPool.QueueUserWorkItem` run in place.
    Each is either a command or its datastore writes, in program order.
  - The entity writes come before the product-info request, although in the source they
    run beside it.
  - Races between overlapping tasks are not modelled.
- Time is symbolic. `Thread.Sleep` becomes `Sleep`, and the timer becomes
  `StartTimer`/`StopTimer`. Only `Replay` decides that the timer raises its event, and
  only while started. A tick that fires just after `Stop` is not modelled. The clock
  does not advance between callbacks in `Replay`, so every write within one replay carries
  the same date. The difference between refreshing a date (`Steam.cs:246`) and keeping
  it (`Steam.cs:259`) is stated per call, in the `Datastore` functions and `NewDiff`.
- The per-entity processors and the IRC request handler are opaque commands. These are
  `AppProcessor`, `SubProcessor` and `ircSteam.OnProductInfo`. Their payloads are opaque
  strings.
- Registering IRC requests happens in SteamProxy.cs, which is not part of this model. The
  pending list is a field that other code may set. Requests are identified by their job ID
  alone.
- Setting `isRunning` to false is shutdown code outside `Steam.cs`. The field is exposed
  as is.
- The `Changelists.Date` column is assumed to default to the current time. The schema is
  not part of this model.
- IDs and change numbers are unsigned 32-bit in the source and unbounded here. The class
  only compares and copies them, so no wrap-around can arise.
