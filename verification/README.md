# Verified models of Klarity's stateful core

Klarity is an Electron front-end around a `bcc-node` and its wallet backend. This project models, in Dafny, the parts of it
whose guarantees span several functions, and proves those guarantees for all inputs and all runs.
`dafny verify dfyconfig.toml` checks everything.

## What is modelled

**The node supervisor** (`Polling`, `Supervisor*`). `Supervisor` has the fields of a `BccNode` and one method per stretch of
synchronous code between two awaits, each proved against a function on the fields. `SupervisorRuns` makes whole sessions of
them: every call of `start`, `stop`, `kill`, `restart`, `expectNodeUpdate` and of the exit handler is a task parked at one of
its awaits, and any task or outside event (setup, restarts, crash timers, disk reports, safe exits, dying processes, exit
events) may go next. Processes, lookups, launches and the store answer as they like. These results follow.

- For any interleaving: the retry counter counts STARTING broadcasts since RUNNING, what may be broadcast after what, and
  that the TLS configs sent out are those of the ports replied with.
- For runs in which nothing else comes between, whatever else is parked: stops, kills, exits, updates, starts and restarts
  are followed to their ends, with every field of the world after them. A restart comes up again, a crash is followed by a
  new start, a full disk stops the node and enough space starts it (`SupervisorPlay`, `SupervisorStops`, `SupervisorStarts`).
- When every launch fails: the recursion between `start`, `_handleBccNodeError` and `restart` ends, after exactly the
  retries that were left, in UNRECOVERABLE; from there only a forced restart leads to a launch, to exactly one if it fails.
- For sessions in which starts wait for each other and for the previous stop or exit handler: the process is handed over
  through its recorded pid, so that no two nodes live at once, and RUNNING means a connected node and a TLS config exactly as
  long as no failed `kill` cleans up under RUNNING, which takes an awaited update.
- For any interleaving again: crashes and scheduled restarts balance, after a safe exit while stopping only starts already
  in flight can still launch, and the wait for an update passes only after an exit with the update code.
- Three defects. A session whose first start finds the recorded process of an earlier session alive never launches a node:
  `_killProcessWithName` reads the timeout off a config that only a later line of `start` sets. A `kill` called by the wait
  for an update that fails after a retried start has reached RUNNING leaves that state without a node.
  And `start` reads a failing lookup of the recorded process as "not running", and launches beside it.

**Promises over IPC** (`IpcProtocol`, `IpcConversations`, `IpcChannels`): the protocol that matches responses by id, and the
one in which every pending listener takes the next response, as two-party systems with messages in flight.

**Downloads** (`ElectronStores`, `Downloads`, `DownloadHistories`, `Throttle`): the nested key/value document as a flat map,
the merge that keeps maxima, the pause sweep, and the progress throttle.

**Rules and transformations** (`ApiErrors`, `LauncherTemplates`, `NewsFeed`): the fluent error matcher against a first-match
specification, `${VAR}` substitution over a config tree, and collections of news made by repeated stable sorts.

**Arithmetic and selection** (`CoinSelection`, `DiskSpace`, `LogSelection`): conservation of value, the disk-space watch over
whole histories of samples, and the choice of log files.

## Where the code departs from what it says

The model follows the code.

- `read` and `unread` news are announced as newest to oldest but sorted ascending, which is the same only while they all have
  one date; the one incident shown is an oldest one
  (source/renderer/app/domains/News.js:114-126, 168-178).
- `IpcChannel` promises the next response on the channel; with overlapping calls that is another call's response
  (source/common/ipc/lib/IpcChannel.js:68-92).
- A chain of three `ApiError` rules can lose a match to a later rule that does not match
  (source/renderer/app/domains/ApiError.js:101-158).
- The progress throttle holds only while no progress lies strictly between 0 and one millionth of a percent, because
  `parseInt` then reads an exponent notation (source/main/ipc/downloadManagerChannel.js:110-114).
- The key that is to put the log files into the order of their list puts rotated files before the file they come from and
  names that go on with a hyphen before those that do not (source/main/ipc/get-logs.js:95-99).
- A failed disk-space check stops the polling, and in shortage only a sample with enough space starts it again
  (source/main/utils/handleDiskSpace.js:80-86).

## Model

| member | source | states |
|---|---|---|
| Polling.PromisedConditionOutcome | source/main/bcc/utils.js:34-70 | a polled promise resolves exactly when one of at most ceil(timeout / retryEvery) + 1 polls sees the condition, at the first such poll, and rejects only when all of them failed |
| Supervisor.BccNode.constructor | source/main/bcc/BccNode.js:244-248 | a new supervisor is STOPPED, has tried nothing and knows only the recorded pid |
| Supervisor.BccNode.BroadcastState | source/main/bcc/BccNode.js:763-767 | the state and the broadcast change together |
| Supervisor.BccNode.Start | source/main/bcc/BccNode.js:261-304 | start enters STARTING and counts a try exactly when the node can be started, a config is given, and the start is forced or retries are left; otherwise nothing changes |
| Supervisor.BccNode.Adopt | source/main/bcc/BccNode.js:368-383 | the launcher becomes the node before it has a pid |
| Supervisor.BccNode.Connect | source/main/bcc/BccNode.js:411-413 | pid and connection are recorded on the launcher that came up |
| Supervisor.BccNode.HandleReplyPortMessage | source/main/bcc/BccNode.js:660-685 | the TLS config is kept; only out of STARTING does the node become RUNNING, broadcast the config and reset the counter |
| Supervisor.BccNode.HandleError | source/main/bcc/BccNode.js:701-711 | ERRORED and a restart while retries are left, else UNRECOVERABLE and none |
| Supervisor.BccNode.StoreStates | source/main/bcc/BccNode.js:935-942 | the current node's pid goes on record, if there is one |
| Supervisor.BccNode.ResetFields | source/main/bcc/BccNode.js:756-761 | node and TLS config are dropped, nothing else |
| Supervisor.BccNode.ConcludeKill | source/main/bcc/BccNode.js:511-513 | STOPPED is broadcast and the node dropped |
| Supervisor.BccNode.CatchRestartError | source/main/bcc/BccNode.js:551-558 | a failed restart is ERRORED unless UNRECOVERABLE was reached |
| Supervisor.BccNode.NoticeExit | source/main/bcc/BccNode.js:713-719 | an exit event turns RUNNING, and only RUNNING, into EXITING |
| Supervisor.BccNode.DecideExit | source/main/bcc/BccNode.js:739-751 | the outcome of an exit, and whether the crash hook runs |
| SupervisorTrace.EveryRunIsLawful | source/main/bcc/BccNode.js:261-787 | in every run under any interleaving the counter is the number of STARTING broadcasts since RUNNING, the state is the last broadcast, RUNNING directly follows STARTING and is followed by a TLS config, UPDATED only follows UPDATING with exit code 20, UNRECOVERABLE and CRASHED split on the retry bound, and unforced starts respect it |
| SupervisorTrace.AtMostMaxRetriesStarts | source/main/bcc/BccNode.js:276-300 | without forced starts, no stretch of a run without RUNNING holds more than startupMaxRetries starts |
| SupervisorTrace.SentConfigsAreReplied | source/main/bcc/BccNode.js:660-685 | in every run, what is sent out are the TLS configs of the ports replied with while STARTING, each once and in order |
| SupervisorTrace.NextIsConsistent | source/main/bcc/BccNode.js:261-787 | every single step keeps counter, state and broadcasts in agreement |
| SupervisorFailing.FailingStartEndsUnrecoverable | source/main/bcc/BccNode.js:261-711 | from an unforced start, at any time of a session when no other call will go on, whose launches all fail, with rejections delivered at any time, the run is finite, makes at most the retries left and, when nothing is left to do, exactly those, and ends UNRECOVERABLE with all its promises settled |
| SupervisorFailing.FailingRestartEndsUnrecoverable | source/main/bcc/BccNode.js:531-711 | the same from a restart, as of a crash timer or disk report; forced past the bound it makes exactly one launch |
| SupervisorFailing.ForcedRestartFallsBack | source/main/bcc/BccNode.js:261-711 | a forced restart of an unrecoverable supervisor whose launch fails makes exactly one launch and leaves everything as before |
| SupervisorUnrecoverable.UnrecoverableIsFinal | source/main/bcc/BccNode.js:261-711 | after UNRECOVERABLE with the node dropped or disconnected, unforced restarts, crash timers, disk reports, exits and calls in progress, in any number and order, leave the state and launch nothing |
| SupervisorUnrecoverable.ReachedUnrecoverableIsFallen | source/main/bcc/BccNode.js:701-754 | every run from a new supervisor that ends UNRECOVERABLE, not connected and with no start, stop or kill of a live node under way is such a situation |
| SupervisorUnrecoverable.UnrecoverableIsExhausted | source/main/bcc/BccNode.js:701-751 | UNRECOVERABLE means that the retries are used up |
| SupervisorUnrecoverable.ForcedRestartGetsOneLaunch | source/main/bcc/BccNode.js:261-560 | a forced restart then makes at most one launch, whatever else happens, and if it fails or is refused everything is as before |
| SupervisorUnrecoverable.CalmOutside | source/main/index.js:79-179 | disk reports of either kind, safe exits, crash timers and unforced restarts cannot revive an exhausted supervisor |
| SupervisorSequenced.OrderlyRunInv | source/main/bcc/BccNode.js:261-761 | the hand-over invariant holds after every step of a run whose starts wait |
| SupervisorSequenced.AtMostOneNodeAlive | source/main/bcc/BccNode.js:476-942 | of all processes ever started at most one is alive, it is the current node's or the one on record, and none of them nor the recorded one is alive while the next is launched and comes up |
| SupervisorRunning.RunningHasNode | source/main/bcc/BccNode.js:468-761 | throughout a run whose starts wait, with updates and failing lookups or not, RUNNING means a connected node and a TLS config if and only if no failed kill cleans up while RUNNING |
| SupervisorRunning.OnlyFailedKillStrands | source/main/bcc/BccNode.js:500-522 | one event keeps that so exactly when it is not such a cleanup |
| SupervisorRunning.RunningHasNodeWithoutUpdates | source/main/bcc/BccNode.js:468-761 | so RUNNING means a connected node and a TLS config whenever no update is awaited |
| SupervisorSequenced.DroppedNodeIsRecorded | source/main/bcc/BccNode.js:468-522 | whatever lets go of a node with a pid has put that pid on record |
| SupervisorStranded.FailedKillStrandsRunning | source/main/bcc/BccNode.js:500-590 | with an update awaited and the configured timeouts, such a run can end RUNNING without a node |
| SupervisorMissed.MissedLookupLaunchesBeside | source/main/bcc/BccNode.js:874-897 | a start whose lookup of the recorded process fails launches a second node beside it |
| SupervisorLeftover.LeftoverNodeBarsTheSession | source/main/bcc/BccNode.js:810-933 | once the first start has found the recorded process alive, nothing, not even forced restarts, launches a node in that session |
| SupervisorLeftover.FirstStartNeedsNoLeftover | source/main/bcc/BccNode.js:810-872 | the first start enters STARTING exactly when nothing is on record or the lookup does not report it running |
| SupervisorStarts.RestartRuns | source/main/bcc/BccNode.js:531-550 | a restart of a connected node, by call, crash timer or disk report, whose process goes in time broadcasts STOPPING and STARTING, puts the old pid on record, drops the node and is launching |
| SupervisorStarts.RestartComesUp | source/main/bcc/BccNode.js:261-685 | and when the children of the new launcher come up it is RUNNING with the new pid and port, no tries counted, and every call resolved |
| SupervisorStarts.RestartGoesOn | source/main/bcc/BccNode.js:539-550 | a restart whose stop resolved goes on to a start with the config and force flag it captured |
| SupervisorStarts.RestartOfNoneRuns | source/main/index.js:172-177 | a report of enough space while neither STARTING nor RUNNING, a crash timer or a restart call, with no node connected, none left over and retries left, leads to STARTING |
| SupervisorStarts.RestartTakesOutcome | source/main/bcc/BccNode.js:534-560 | a restart takes the outcome of its start, and rejects with its stop, ERRORED unless UNRECOVERABLE |
| SupervisorStarts.CrashedNodeStartsAgain | source/main/bcc/setup.js:117-124 | a running node that exits with retries left goes through EXITING and CRASHED, is let go, and the timer set for it starts it again |
| SupervisorStarts.LaunchRuns | source/main/bcc/BccNode.js:364-430 | a launch whose children come up ends RUNNING, the pid and port they replied with in place and the config sent out |
| SupervisorStarts.UnreadableLaunchRestarts | source/main/bcc/BccNode.js:660-711 | children that come up without readable certificates make the launch fail; with retries left the connected node is ERRORED and its restart begins with a stop |
| SupervisorStarts.StartKillsLeftover | source/main/bcc/BccNode.js:861-933 | a start of a configured node that finds the recorded process alive waits until the kill has worked and then enters STARTING |
| SupervisorStarts.LeftoverOutlivesStart | source/main/bcc/BccNode.js:861-933 | if the process outlives the kill timeout the start rejects and changes nothing, forced or not |
| SupervisorStarts.SetupRuns | source/main/bcc/setup.js:129-130 | setting up with nothing left over enters STARTING |
| SupervisorStops.OrderBeginsStop | source/main/index.js:159-179 | a report of a full disk, or a safe exit, with a connected node that is neither STOPPING nor STOPPED leads to STOPPING |
| SupervisorStops.OrderedStopRuns | source/main/bcc/BccNode.js:468-485 | and, if its process goes in time, to a node that is let go with its pid on record and a stop that resolves |
| SupervisorStops.OutlivedStopRuns | source/main/bcc/BccNode.js:476-498 | a stop whose process outlives the shutdown timeout, polled every second, kills the node, which ends STOPPED |
| SupervisorStops.KillFails | source/main/bcc/BccNode.js:514-520 | a kill whose signal or store throws keeps the state, but lets go of the node, records its pid and rejects |
| SupervisorStops.ExitRuns | source/main/bcc/BccNode.js:713-754 | an exit is handled to its end: STOPPED out of STOPPING, UPDATED out of UPDATING with code 20, else UNRECOVERABLE without retries and CRASHED with a restart timer; the node is let go with its pid on record |
| SupervisorStops.OutlivedExitRuns | source/main/bcc/BccNode.js:713-754 | the same if the process outlives the shutdown timeout |
| SupervisorStops.LateExitRuns | source/main/bcc/BccNode.js:713-754 | the exit reported after a stop has let go of the node ends in STOPPED |
| SupervisorStops.UpdateRuns | source/main/bcc/BccNode.js:576-592 | an awaited update whose node leaves with code 20 resolves in UPDATED with the node let go |
| SupervisorStops.MissedUpdateRuns | source/main/bcc/BccNode.js:576-592 | one that does not come within the update timeout kills the node |
| SupervisorHooks.CrashesScheduleRestarts | source/main/bcc/setup.js:117-124 | in every run, the crash timers running and those that went off are together as many as the CRASHED broadcasts |
| SupervisorHooks.LeavingIsFinal | source/main/bcc/BccNode.js:542-550 | once the exit on stop is asked for and no start is in flight, no restart, forced or not, no crash timer and no disk report launches a node |
| SupervisorHooks.OnlyStartsInFlightLaunch | source/main/bcc/BccNode.js:542-550 | with starts in flight, no more launches than those come |
| SupervisorHooks.SafeExitWhileStopping | source/main/index.js:85-89 | so it is after a safe exit while STOPPING, whatever happens |
| SupervisorHooks.UpdateWaitsForUpdated | source/main/bcc/BccNode.js:576-590 | in every run, a wait for an update gets past its first condition only when the latest broadcast is that the node exited with the update code while UPDATING |
| IpcConversations.IpcConversation.Request | source/common/ipc/lib/IpcConversation.js:64-91 | a request registers a listener of its own and sends its id with the message |
| IpcConversations.IpcConversation.Handler | source/common/ipc/lib/IpcConversation.js:71-87 | a listener reacts to its own id only, settles once and unregisters |
| IpcConversations.EmitSettlesOne | source/common/ipc/lib/IpcConversation.js:77-88 | of all listeners that a response is shown to, only its own does anything |
| IpcConversations.RequestsAreSettledByTheirOwnResponse | source/common/ipc/lib/IpcConversation.js:64-112 | in every run each request is settled at most once, with what the handler computed for its own message, the listeners are exactly the unsettled requests, and a request is unsettled only while its response is outstanding |
| IpcChannels.IpcChannel.Send | source/common/ipc/lib/IpcChannel.js:73-117 | a call registers a one-shot listener on the shared channel |
| IpcChannels.IpcChannel.Respond | source/common/ipc/lib/IpcChannel.js:80-90 | a response settles and removes every listener |
| IpcChannels.NoCallIsLost | source/common/ipc/lib/IpcChannel.js:73-159 | in every run no call is settled twice, every unsettled call's own response is still outstanding, and any response settles all calls made so far |
| IpcChannels.DeliveryMatchesIffAlone | source/common/ipc/lib/IpcChannel.js:81-90 | a delivery does what matching by id would do exactly when no other call is waiting |
| IpcChannels.SerialChannelRefinesConversation | source/common/ipc/lib/IpcChannel.js:73-159 | with at most one call outstanding the shared channel is the id-correlated protocol |
| IpcChannels.OverlappingCallsShareAResponse | source/common/ipc/lib/IpcChannel.js:81-90 | two crossing calls are both settled by the second one's response |
| ElectronStores.ElectronStore.RequestElectronStore | source/main/ipc/electronStoreConversation.js:45-62 | get, set and delete go to the dot path of network, key and id, and change nothing else |
| ElectronStores.PathOfKey | source/main/ipc/electronStoreConversation.js:21-48 | that path is the key's entry, or with an id one member of it |
| ElectronStores.IdsAreDotFree | source/main/utils/downloadManager.js:33-34 | ids made from file names hold no dot, and are the names where these hold none |
| ElectronStores.SetBehavesFlat | source/main/ipc/electronStoreConversation.js:54-55 | what is set is read back, every other key and id reads as before, and the key's members are the old ones and the new one |
| ElectronStores.DeleteBehavesFlat | source/main/ipc/electronStoreConversation.js:52-53 | what is deleted reads as absent, every other key and id as before |
| ElectronStores.DottedIdsInterfere | source/main/ipc/electronStoreConversation.js:47 | an id with a dot replaces another id's value |
| ElectronStores.NetworksAreApart | source/main/ipc/electronStoreConversation.js:21 | entries of one network are untouched from another, as network names hold no hyphen |
| Downloads.DownloadManagerLocalStorage.Get | source/main/utils/mainLocalStorage.js:20-28 | info and data of an entry, or neither |
| Downloads.DownloadManagerLocalStorage.GetAll | source/main/utils/mainLocalStorage.js:29-35 | exactly the entries |
| Downloads.DownloadManagerLocalStorage.SetInfo | source/main/utils/mainLocalStorage.js:36-44 | the entry holds the info and the default data; no other entry and no other key changes |
| Downloads.DownloadManagerLocalStorage.SetData | source/main/utils/mainLocalStorage.js:45-62 | the entry's data are merged with the update, its info, every other entry and every other key stay |
| Downloads.DownloadManagerLocalStorage.SetAllPaused | source/main/utils/mainLocalStorage.js:63-79 | the loop pauses the running entries, in whatever order it visits them |
| Downloads.DownloadManagerLocalStorage.Unset | source/main/utils/mainLocalStorage.js:80-94 | exactly the entry and the mark of a failed update are removed |
| Downloads.EntryPath | source/main/utils/mainLocalStorage.js:22-27 | a request for one download is a lookup or change of one entry |
| DownloadHistories.DownloadsAreIndependent | source/main/utils/mainLocalStorage.js:45-62 | after any updates of any downloads, a download's data depend on its own updates only |
| DownloadHistories.NumericFieldIsMaximum | source/main/utils/mainLocalStorage.js:50-54 | a numeric field other than the remaining size is the maximum of 0 and the numbers written since the last value that is no number, and empty if that came last |
| DownloadHistories.OrderDoesNotMatter | source/main/utils/mainLocalStorage.js:50-54 | histories that write the same numbers leave the field the same, and more numbers never lower it |
| DownloadHistories.OtherFieldsAreLastWritten | source/main/utils/mainLocalStorage.js:50-54 | every other field holds what was last written |
| DownloadHistories.NoNumberForgets | source/main/utils/mainLocalStorage.js:50-54 | one value that is no number makes the field forget its maximum |
| DownloadHistories.EntryShowsTheHighest | source/main/utils/downloadManager.js:102-224 | as long as a download's entry is kept, its percentage, its speed and its sizes are the highest that its events have said, never below 0 |
| DownloadHistories.EntryShowsTheLatest | source/main/utils/downloadManager.js:102-224 | its state, DOWNLOADING, PAUSED, FINISHED or FAILED by the latest event, its remaining size, its incomplete flag and its message are the latest |
| DownloadHistories.SweepPausesExactlyTheRunning | source/main/utils/mainLocalStorage.js:63-79 | after the sweep nothing runs below 100 percent, only what did has changed, only in its state, and a second sweep changes nothing |
| Throttle.ProgressListener.OnProgress | source/main/ipc/downloadManagerChannel.js:110-114 | forwarding and counting go together |
| Throttle.CounterStaysBehindIff | source/main/ipc/downloadManagerChannel.js:103-114 | the counter never exceeds the whole percents done exactly when no report lies strictly between 0 and one millionth |
| Throttle.AtMostHundredPass | source/main/ipc/downloadManagerChannel.js:103-114 | then at most 100 reports pass, never more than the whole percents done, and the first report of 100 passes |
| Throttle.PassesIffBehind | source/main/ipc/downloadManagerChannel.js:110-114 | then a report passes exactly when fewer have passed than whole percents are done |
| Throttle.TinyReportOpensTheGate | source/main/ipc/downloadManagerChannel.js:111 | after one such tiny report, any number of reports below one percent passes |
| ApiErrors.ApiError.constructor | source/renderer/app/domains/ApiError.js:60-95 | a new error has no rule ahead |
| ApiErrors.ApiError.SetError | source/renderer/app/domains/ApiError.js:101-137 | the new fields after `set` |
| ApiErrors.ApiError.Where | source/renderer/app/domains/ApiError.js:139-158 | the new fields after `where` |
| ApiErrors.ApiError.Inc | source/renderer/app/domains/ApiError.js:160-169 | the new fields after `inc` |
| ApiErrors.ApiError.GetResult | source/renderer/app/domains/ApiError.js:171-192 | localized, known, fallback or generic error |
| ApiErrors.ChainIsScanned | source/renderer/app/domains/ApiError.js:101-169 | a chain of any length ends as a scan of its rules in which a match consumes the next rule |
| ApiErrors.ResultIsFirstMatch | source/renderer/app/domains/ApiError.js:72-192 | chains of at most two rules, and longer ones with no enabled rule two or more places after the match, answer the first enabled rule whose tests hold, then the localized error, the fallback, the generic one |
| ApiErrors.PicksFirstMatchIff | source/renderer/app/domains/ApiError.js:101-169 | with different errors, a chain of any length picks the first match exactly when no enabled rule comes two or more places after it |
| ApiErrors.FeeChainIsFirstMatch | source/renderer/app/api/api.js:1003-1020 | the fee chain is first-match, as its first rule is only for a localizable error |
| ApiErrors.FeeChainOutcomes | source/renderer/app/api/api.js:1206-1223 | too little money, too small an output and a bad address each get their own error, by code and message; every other error is the localized one, the fallback or the generic one |
| ApiErrors.FeeChainDetails | source/renderer/app/api/api.js:1011-1016 | too small an output comes with the minimum amount, and an address is bad wherever the message says so |
| ApiErrors.FeeChainValues | source/renderer/app/api/api.js:1206-1223 | the minimum amount goes with its own error and with no other |
| ApiErrors.ThirdRuleLosesTheMatch | source/renderer/app/domains/ApiError.js:101-158 | with its rules the other way round, the chain matches a bad address and then loses the match to the third, forced rule |
| ApiErrors.AddedValueFeedsATest | source/renderer/app/domains/ApiError.js:118-144 | a rule whose test reads a value it adds matches whatever the error said |
| LauncherTemplates.RecurseReplace | source/main/utils/config.js:6-41 | the loops over arrays and objects compute the substitution on trees |
| LauncherTemplates.PlaceholderBecomesValue | source/main/utils/config.js:20-27 | a placeholder becomes the value of its variable, or nothing if there is none; the text before it stays and the text after it is replaced in turn |
| LauncherTemplates.EveryTextIsReplaced | source/main/utils/config.js:6-41 | every text of the tree, however deep, is replaced once, where it stands |
| LauncherTemplates.ReplacingKeepsShape | source/main/utils/config.js:6-41 | array lengths, keys and their order, and all leaves but texts stay |
| LauncherTemplates.ReplaceResolves | source/main/utils/config.js:20-27 | if every referenced variable has a value free of dollars and braces, no placeholder is left in a text |
| LauncherTemplates.SecondPassIsIdentity | source/main/utils/config.js:6-41 | then none is left in the tree, and a second pass under any environment is the identity |
| LauncherTemplates.UndefinedVariableMakesPlaceholder | source/main/utils/config.js:20-27 | an undefined variable can leave a new placeholder behind |
| NewsFeed.CreateIsWellBuilt | source/renderer/app/domains/News.js:80-112 | a collection holds exactly the shown news, newest first |
| NewsFeed.CreateShowsExactly | source/renderer/app/domains/News.js:80-104 | shown are exactly the complete items of the data, other than updates, for this platform and version |
| NewsFeed.UpdateIsTheFirst | source/renderer/app/domains/News.js:106 | the update kept is the first one in the data, if there is one |
| NewsFeed.OrderByIsStable | source/renderer/app/domains/News.js:105 | news of one date keep their order |
| NewsFeed.SortedIsUnique | source/renderer/app/domains/News.js:105-105 | a sorted sequence is determined by what it holds date by date |
| NewsFeed.ResortingForgets | source/renderer/app/domains/News.js:105-131 | sorting one way and then the other is sorting the second way, ties included |
| NewsFeed.DerivedCollectionsAreSubsequences | source/renderer/app/domains/News.js:80-166 | rebuilding a collection changes nothing; alerts, announcements and infos are exactly those of the collection in its own order, tie order included |
| NewsFeed.DerivedCollectionsHold | source/renderer/app/domains/News.js:114-166 | alerts are all alerts, announcements and infos the unread ones, and an incident is shown exactly when there is one |
| NewsFeed.ReadAndUnreadPartition | source/renderer/app/domains/News.js:168-178 | read and unread news partition the collection and are each sorted by date |
| NewsFeed.AnnouncedOrderIff | source/renderer/app/domains/News.js:168-178 | read, or unread, news come newest to oldest, as announced, exactly when they all have one date |
| NewsFeed.IncidentIsOldest | source/renderer/app/domains/News.js:114-126 | the incident shown is an oldest one |
| CoinSelection.SelectCoins | source/renderer/app/api/api.js:1024-1180 | without delegation and payments, or for an answer without outputs or change, a generic error; on success inputs and withdrawals equal outputs, change, deposits and fee, or when quitting, with the reclaimed deposit, outputs, change and fee; every item is kept in order |
| CoinSelection.AddUp | source/renderer/app/api/api.js:1084-1121 | the loops total the amounts and keep every item |
| CoinSelection.TotalConcat | source/renderer/app/api/api.js:1078 | outputs and change add up |
| CoinSelection.ShortageIsExplained | source/renderer/app/api/api.js:1184-1223 | a shortage of money gets exactly the message that fits the balances |
| DiskSpace.DiskSpaceWatch.constructor | source/main/utils/handleDiskSpace.js:21-108 | the watch opens with the long timer running |
| DiskSpace.DiskSpaceWatch.SetDiskSpaceIntervalChecking | source/main/utils/handleDiskSpace.js:99-105 | the old timer is replaced by one with the recorded period |
| DiskSpace.DiskSpaceWatch.CheckSample | source/main/utils/handleDiskSpace.js:38-66 | the new state after a sample |
| DiskSpace.DiskSpaceWatch.HandleCheckDiskSpace | source/main/utils/handleDiskSpace.js:25-97 | one check: the new state and the response, also when the probe fails or passing on a good result throws |
| DiskSpace.AfterByVerdict | source/main/utils/handleDiskSpace.js:38-66 | what a sample does, by its place in relation to 90%, 100% and 200% of the required size |
| DiskSpace.CallersSizeCounts | source/main/utils/handleDiskSpace.js:25-62 | a check is judged against the size its caller asks for, or the default: short at 90% of it, enough from 100%, ample only from 200% |
| DiskSpace.LatestDecidedSampleRules | source/main/utils/handleDiskSpace.js:21-105 | over every history, failed checks included: the flag is the verdict of the latest sample outside the open band, never more than one timer runs, and one runs with the recorded period exactly when no check failed since a period was last chosen |
| DiskSpace.PollingKeepsItsPace | source/main/utils/handleDiskSpace.js:42-66 | while no check fails, exactly one timer runs, and it is the short one exactly in shortage |
| DiskSpace.ShortageOutlivesPolling | source/main/utils/handleDiskSpace.js:42-47 | in shortage a failed check ends the polling, and low samples on request do not restart it |
| LogSelection.FamiliesAreDisjoint | source/main/config.js:146-148 | no file name belongs to two rotated families |
| LogSelection.NamesByKind | source/main/config.js:137-148 | the names that the log files have belong where they should |
| LogSelection.BelongsExactly | source/main/config.js:146-148 | a name belongs to a family exactly when it ends in fourteen digits with the family's prefix right before them, any character but a line end for the dot |
| LogSelection.OldNamesAreStamped | source/main/ipc/get-logs.js:30-47 | an older version of the application's log is its name, a hyphen and fourteen digits, and nothing else |
| LogSelection.Consider | source/main/ipc/get-logs.js:75-89 | one pass of the loop: what it pushes and what it counts |
| LogSelection.GetLogs | source/main/ipc/get-logs.js:63-104 | the loop with its three counters computes the choice, sorted by the custom key |
| LogSelection.HandsOutTheLatest | source/main/ipc/get-logs.js:49-100 | whatever order the directory is read in, exactly the allowed files and, per family, the names with fewer than three greater ones are handed out |
| LogSelection.HandsOutOnceInOrder | source/main/ipc/get-logs.js:93-100 | each once, in the order of their keys |
| LogSelection.KeyOfName | source/main/ipc/get-logs.js:95-99 | a key is what comes before the dot and the number of characters after it |
| LogSelection.KeysReorder | source/main/ipc/get-logs.js:95-99 | these keys do not keep the order of the list |

## Left out

- Processes, spawning, killing, `find-process`, timers and log streams are the environment: any answer may come, in any
  order, and time does not pass. Pids are not reused, a lookup is for a pid and not for its name, and the wallet's own pid
  does not appear.
- SupervisorSequenced.AtMostOneNodeAlive: holds as long as `start`'s lookups of the recorded process do not fail while it is
  alive (source/main/bcc/BccNode.js:893-896); SupervisorMissed shows what happens otherwise. It is also taken that a launch
  that fails leaves no process behind.
- SupervisorFailing.FailingStartEndsUnrecoverable: launches that fail before the node is up, not those whose node comes up
  and whose certificates cannot be read; the restart after such a failure stops the node first.
- SupervisorUnrecoverable.UnrecoverableIsFinal: excludes update requests, which broadcast UPDATING at any time, and starts
  already launching when UNRECOVERABLE was reached.
- No liveness is claimed for the supervisor beyond the failing start and the undisturbed runs: `kill` on a dead node never
  settles (source/main/bcc/BccNode.js:503-506), and the wait in `_waitForBccToExitOrKillIt` returns at once, as it tests a
  promise (source/main/bcc/BccNode.js:994). The killing inside the exit handler is one step with any outcome.
- The selfnode mode of `start`, injected faults, the status cache, and what `safeExitWithCode` does.
- IPC: the tables of instances and the checks of channel names; a single responder and fresh ids are assumed.
- The store: escaped dots, the RESET request, and the file behind it. Values below one id are taken as wholes.
- Downloads.DownloadManagerLocalStorage.SetData: one call runs to its end before the next; two calls for one id whose
  awaits interleave are not modelled. Ids are non-empty and without dots, as the callers promise, and texts are not read
  as numbers.
- Downloads.DownloadManagerLocalStorage.Unset: promises nothing for an id with a dot, or an absent one with an opening
  bracket, because `omit` takes such an id for a path and may reach into another entry.
- DownloadHistories.EntryShowsTheLatest: the removal of the entry at the end of a download without `persistLocalData`
  (source/main/utils/downloadManager.js:188-189) is not part of it.
- Throttle.AtMostHundredPass: reports between 0 and 100 that do not go down, as a download's do.
- The exclusion of duplicate downloads: it is checked before an await and does not hold under concurrent requests.
- ApiErrors.ResultIsFirstMatch: no test reads a value that a rule adds, as in every chain of the repository, since such a test
  can hold where the error itself does not pass it (ApiErrors.AddedValueFeedsATest); translation of
  added values, logging and the id, message and code of the result are not modelled.
- LauncherTemplates: YAML parsing, the console warning, and keys such as `__proto__`.
- NewsFeed: version ranges are taken as satisfied or not; the colour and repeat fields of news.
- CoinSelection.SelectCoins: amounts are exact integers; the renaming of fields, metadata and the request itself are not
  modelled.
- DiskSpace: byte sizes as displayed, and the short interval of test builds.
- LogSelection.HandsOutTheLatest: characters are code units, and names within one directory differ.
- Hardware wallets, HTTP, MobX stores, components, menus, key handling and build scripts.
