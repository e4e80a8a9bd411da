# deck-os core, modelled in Dafny

deck-os is a browser desktop: a terminal, a file explorer, an embedded
browser and an event timeline. This project models its server-side and
state-keeping core. Each part is stated in Dafny and proved against its own
specification.

- **Terminal servers.**
  - `PtyServer` models `pty-server.js`. One PTY is shared per session id.
    Every socket that joins the id is in the id's connection set. Output and
    exits are broadcast to the open members of that set.
  - `TerminalServer` models the per-connection server of `server.js`; the
    same `handleWebSocket` is in `server/index.js`. Each socket spawns its own
    PTY, and the PTY is registered under the socket's session id.
  - `TerminalProtocol` holds the frames and the session-id default that both
    servers share.
  - Each event handler is one atomic step. It is written as a
    state-transition function, with its invariant proved. A class whose
    fields are the module-level maps performs the step in place.
- **Command route.** `TerminalRoute` models `app/api/terminal/route.ts`:
  - the per-session table of working directories;
  - the dangerous-command filter;
  - `cd` handled by the route itself;
  - `exec` for everything else, with `pwd` able to correct the table.
- **File routes.**
  - `Listing` models the `GET` file route (`app/api/files/route.ts`, whose
    rules `server/routes/files.js` repeats). It covers file content, the
    per-item entries, the parent entry, and the listing order. The sort is
    an in-place insertion sort on an array, proved sorted and a permutation.
  - `Upload` models the `POST` and `PUT` upload handlers of
    `app/api/upload/route.ts`. A `Disk` object holds the files the loop
    writes.
- **Client-side state.**
  - `Config` models `lib/config.ts`: the write-permission test, the
    default-path chain and the memoised configuration.
  - `FileOperations` models `lib/file-operations.ts`: extension and text-file
    classification, and the results the request helpers return.
  - `EventLog`, `EventStore` and `BrowserEventStore` model the two zustand
    stores, which de-duplicate events by id.
  - `Selection` models the file explorer's multi-select rules.
  - `BrowserHistory` models the embedded browser's history, index and
    address bar.

The model represents its environment as follows:

- The file system is a map from paths to nodes or contents.
- `path.resolve`, `path.join` and `path.dirname` are opaque functions.
- These are inputs to the operations:
  - the outcomes of `pty.spawn`, `resize`, `exec`, `mkdir`, `writeFile` and
    `fetch`;
  - the environment variables.
- Sockets and PTYs are opaque numbers.
- What a server sends, and what it does to a PTY, are per-socket and per-PTY
  logs.

## Model

| member | source | states |
|---|---|---|
| TerminalProtocol.SessionIdOf | pty-server.js:24 | a missing or empty `sessionId` query value gives `default`, any other value is kept, and the id is never empty |
| TerminalProtocol.NumberOr | server.js:63 | `n \|\| d` on a number: an absent or zero value gives the default, any other value is kept |
| PtyServer.Dispatch | pty-server.js:94-119 | an inbound frame acts on the PTY exactly when it is `input`, or `resize` with truthy cols and rows and a resize that does not throw; input writes the data and resize uses the frame's sizes; a malformed frame or any other type does nothing |
| PtyServer.InitialInv | pty-server.js:8-10 | the empty maps satisfy the server invariant |
| PtyServer.ConnectKeepsInv | pty-server.js:19-91 | a connection keeps the invariant whether it reuses the id's PTY, spawns one, or fails to spawn |
| PtyServer.DataKeepsInv | pty-server.js:59-68 | a broadcast of output keeps the invariant |
| PtyServer.ExitKeepsInv | pty-server.js:71-83 | the exit of a live PTY keeps the invariant |
| PtyServer.ReceiveKeepsInv | pty-server.js:94-119 | an inbound frame keeps the invariant |
| PtyServer.CloseKeepsInv | pty-server.js:122-146 | a socket closing keeps the invariant |
| PtyServer.ShutdownKeepsInv | pty-server.js:164-171 | SIGINT keeps the invariant |
| PtyServer.LivePtyUnique | pty-server.js:33-56 | in every reachable state no session id has two live PTYs |
| PtyServer.ConnectReusesPty | pty-server.js:33-35 | connecting to an id that has a PTY spawns nothing: the PTYs, the registry and the next handle are unchanged, and the socket captures the registered PTY and gets `ready` |
| PtyServer.NoDoubleSpawn | pty-server.js:33-56 | two connections to an id without a PTY spawn exactly one PTY, and both sockets capture it |
| PtyServer.SpawnFailureKeepsSocket | pty-server.js:86-90 | a failed spawn sends only `error`, registers no PTY, and still leaves the socket in the id's set |
| PtyServer.FailedSocketNeverLeaves | pty-server.js:86-90 | a socket whose spawn failed has no close handler, so it stays in its set whichever socket closes |
| PtyServer.DataFansOut | pty-server.js:59-68 | a chunk of output is appended once to every open member of the PTY's id, and to no other socket |
| PtyServer.ExitFansOut | pty-server.js:71-83 | an exit unregisters the id and appends one `exit` with the code and signal to every open member of the id's set, and to no other socket; sets, sockets and PTY logs are unchanged |
| PtyServer.ConnectSpawnsFresh | pty-server.js:33-56 | a connection to an id without a PTY whose spawn succeeds registers a fresh handle with an 80x24 spawn in its log, the socket captures it, joins the set and gets `ready` (line 154), and no earlier PTY changes |
| PtyServer.CloseDetachesOnlyItself | pty-server.js:122-146 | a close marks the socket closed and removes only that socket from its id's set, and only when its handler was attached; every other set and every send log are unchanged |
| PtyServer.DetachIsolation | pty-server.js:122-146 | closing one socket does not stop output to another open member of the same id |
| PtyServer.CloseIdempotent | pty-server.js:122-146 | closing twice is closing once, and a close touches no PTY and no session |
| PtyServer.ExitThenRespawn | pty-server.js:71-83 | after an exit the id has no PTY and keeps its set, and the next successful connection spawns a fresh PTY |
| PtyServer.InputGoesToCapturedPty | pty-server.js:99-103 | input from a socket is written to the PTY it captured, and every other PTY log is unchanged |
| PtyServer.DataFrameIgnored | pty-server.js:113-118 | a `data` frame, the type the per-connection server reads, and a malformed frame change nothing |
| PtyServer.RespawnScenario | pty-server.js:59-83 | after an exit and a re-spawn, output of the new PTY also reaches the socket that captured the old one, and input from that socket still goes to the old PTY |
| PtyServer.RespawnScenarioSetup | pty-server.js:19-91 | the state after connect, exit and reconnect on one id: two sockets in the set, two PTYs, and the messages each socket got |
| PtyServer.Server.constructor | pty-server.js:8-10 | the server starts empty and valid |
| PtyServer.Server.Connect | pty-server.js:19-155 | performs the connection step in place and keeps the invariant |
| PtyServer.Server.Join | pty-server.js:27-30 | the socket joins the set of its id, is recorded with the PTY it captured, and gets its first frame; nothing else changes |
| PtyServer.Server.SpawnPty | pty-server.js:40-56 | a fresh handle with an 80x24 spawn is registered for the id |
| PtyServer.Server.Broadcast | pty-server.js:62-66 | the loop sends the message once to each open member of the set, and to no other socket |
| PtyServer.Server.PtyData | pty-server.js:59-68 | performs the output step in place and keeps the invariant |
| PtyServer.Server.PtyExit | pty-server.js:71-83 | performs the exit step in place and keeps the invariant |
| PtyServer.Server.Receive | pty-server.js:94-119 | performs the frame step in place and keeps the invariant |
| PtyServer.Server.Close | pty-server.js:122-146 | performs the close step in place and keeps the invariant |
| PtyServer.Server.Shutdown | pty-server.js:164-171 | kills every registered PTY and keeps the invariant |
| PtyServer.Server.KillAll | pty-server.js:168-171 | the loop appends one `kill` to the log of each target PTY, and to no other |
| TerminalServer.Dispatch | server.js:51-72 | `data` writes; `resize` resizes with 80 and 24 in place of a falsy size unless the call throws; a malformed frame or any other type does nothing |
| TerminalServer.InitialInv | server.js:15 | the empty registry satisfies the invariant |
| TerminalServer.ConnectKeepsInv | server.js:18-32 | a connection with its fresh PTY keeps the one-to-one pairing and the registry invariant |
| TerminalServer.DataKeepsInv | server.js:35-39 | output keeps the invariant |
| TerminalServer.ExitKeepsInv | server.js:42-48 | an exit keeps the invariant, even when it deletes another PTY's entry |
| TerminalServer.ReceiveKeepsInv | server.js:51-72 | an inbound frame keeps the invariant |
| TerminalServer.CloseKeepsInv | server.js:75-82 | a close keeps the invariant |
| TerminalServer.ConnectAlwaysSpawns | server.js:23-32 | every connection spawns exactly one PTY, owned by the socket and with an 80x24 spawn as its whole log, even for an id that has one; no earlier PTY log changes; the new PTY replaces the old one in `terminals`, and the old one stays alive |
| TerminalServer.DataIsPrivate | server.js:35-39 | output reaches only the PTY's own socket, and only while that socket is open |
| TerminalServer.CloseKillsRegisteredPty | server.js:75-82 | closing a socket kills the PTY registered for its id, which may be another socket's, and unregisters the id |
| TerminalServer.StaleExitUnregisters | server.js:42-48 | any exit deletes the id's entry; when the exiting PTY is stale, the newer registered PTY keeps running unregistered, its log unchanged, and its socket gets nothing |
| TerminalServer.ExitIsPrivate | server.js:42-48 | an `exit` reaches only the PTY's own socket, and only while that socket is open; sockets and PTY logs are unchanged |
| TerminalServer.ResizeDefaults | server.js:61-64 | a resize frame without sizes resizes the socket's own PTY to 80x24 |
| TerminalServer.ClosedSocketHearsNothing | server.js:35-39 | after a socket closes nothing more is sent to it |
| TerminalServer.KillsOtherConnectionsPty | server.js:75-82 | with two sockets on one id, closing the first kills the second one's PTY and leaves the first one's PTY running |
| TerminalServer.Server.constructor | server/index.js:29 | the server starts empty and valid |
| TerminalServer.Server.Connect | server/index.js:32-46 | performs the connection step in place and keeps the invariant |
| TerminalServer.Server.SpawnPty | server/index.js:37-46 | a fresh handle with an 80x24 spawn, whose callbacks close over the socket, is registered for the id |
| TerminalServer.Server.PtyData | server/index.js:49-53 | performs the output step in place and keeps the invariant |
| TerminalServer.Server.PtyExit | server/index.js:56-62 | performs the exit step in place and keeps the invariant |
| TerminalServer.Server.Receive | server/index.js:65-84 | performs the frame step in place and keeps the invariant |
| TerminalServer.Server.Close | server/index.js:87-94 | performs the close step in place and keeps the invariant |
| TerminalServer.Server.KillRegistered | server/index.js:89-93 | the PTY registered for the id, if any, gets `kill` and loses its entry; otherwise nothing changes |
| TerminalRoute.MissingCommand | app/api/terminal/route.ts:14-21 | a missing or empty command is a 400 and leaves the table alone; only an absent session id means `default` |
| TerminalRoute.ForbiddenIffDangerous | app/api/terminal/route.ts:26-33 | the response is a 403 exactly when the command holds a dangerous substring, and then the table is unchanged |
| TerminalRoute.SubstringFilter | app/api/terminal/route.ts:27-28 | the filter matches anywhere in the command, so it also blocks a harmless `cat information.txt` |
| TerminalRoute.CwdFallback | app/api/terminal/route.ts:24 | a command runs in the stored directory, else the request's, else the process's; empty strings count as missing |
| TerminalRoute.CdResolution | app/api/terminal/route.ts:36-49 | `~` goes home or to `/`, `-` stays, a relative target is resolved against the current directory, and an absolute one is kept |
| TerminalRoute.CdUpdatesOnlyToDirectory | app/api/terminal/route.ts:51-80 | a `cd` sets the session's entry to its target exactly when the target is a directory; otherwise it fails, reports the old directory, and leaves the table alone |
| TerminalRoute.PwdCorrectsTable | app/api/terminal/route.ts:93-106 | after a successful `pwd`, a non-empty trimmed output that differs from the directory becomes the session's directory; any other output changes nothing |
| TerminalRoute.IncludesNeedsRoom | app/api/terminal/route.ts:28 | a pattern longer than the command never matches it |
| TerminalRoute.PwdIsHarmless | app/api/terminal/route.ts:27-36 | `pwd` passes the filter and is not a `cd` |
| TerminalRoute.FailedCommandKeepsTable | app/api/terminal/route.ts:108-116 | a failed command leaves the table alone and reports its stdout, its stderr (or the error message when stderr is empty) and its exit code |
| TerminalRoute.OnlyOwnSessionChanges | app/api/terminal/route.ts:10-123 | whatever the request, no entry is removed and at most the requesting session's entry changes |
| TerminalRoute.Route.constructor | app/api/terminal/route.ts:10 | the table starts empty |
| TerminalRoute.Route.Post | app/api/terminal/route.ts:12-124 | the response and the new table are those of the handler function |
| Listing.ItemEntry | app/api/files/route.ts:33-52 | an item is a directory or a file by what `stat` finds at its joined path, and an `unknown` entry with `Permission denied` when `stat` fails |
| Listing.Entries | app/api/files/route.ts:31-54 | one entry per directory item, in `readdir` order |
| Listing.NameLeTotal | app/api/files/route.ts:74 | the name order stands in for `localeCompare` and is total |
| Listing.NameLeTrans | app/api/files/route.ts:74 | the name order is transitive |
| Listing.NameLeAntisymmetric | app/api/files/route.ts:74 | the name order is antisymmetric |
| Listing.CompareAgrees | app/api/files/route.ts:69-75 | the comparator as written puts `b` first exactly when `b` comes before `a` in the order: `..`, then directories, then the rest, each by name |
| Listing.EntryLeTotal | app/api/files/route.ts:69-75 | the comparator's order is total |
| Listing.EntryLeTrans | app/api/files/route.ts:69-75 | the comparator's order is transitive |
| Listing.Insert | app/api/files/route.ts:69-75 | one insertion pass leaves the prefix up to `i` sorted, keeps the array a permutation, and leaves the rest alone |
| Listing.Swap | app/api/files/route.ts:69-75 | exchanges two neighbouring entries |
| Listing.SortEntries | app/api/files/route.ts:69-75 | the in-place sort leaves the array sorted and a permutation of what it held |
| Listing.Get | app/api/files/route.ts:6-96 | a missing path, an unreadable file or a directory `readdir` rejects is a 403; a file gives its content and size; a readable directory gives its sorted entries, which are exactly the item entries plus the parent entry when not at the root |
| Listing.EntryNames | app/api/files/route.ts:30-66 | every entry is named after a directory item, or is the parent entry |
| Listing.ListingShape | app/api/files/route.ts:56-81 | the listing has one entry per item plus the parent below the root; the parent comes first; at the root no entry is called `..`; no directory follows a non-directory |
| Listing.ListingMembers | app/api/files/route.ts:30-66 | the listing holds exactly the item entries, plus the parent entry when not at the root |
| Listing.SortedGroups | app/api/files/route.ts:68-75 | in a sorted listing whose `..` entries are directories, no directory follows a non-directory |
| Listing.UnknownEntries | app/api/files/route.ts:44-52 | an item that cannot be stat'ed is still listed, as `unknown` with `Permission denied` |
| Listing.DefaultsToHome | app/api/files/route.ts:9 | without a `path` query the home directory is listed |
| Upload.Outcome | app/api/upload/route.ts:41-91 | a nameless file fails as `unknown` with `Invalid file name`; with the existence check on, an existing path fails with `File already exists`; a write error fails with its message; any other file succeeds at its joined path |
| Upload.Written | app/api/upload/route.ts:67-82 | only a successful file is stored, at its path |
| Upload.RunFrom | app/api/upload/route.ts:41-91 | the loop keeps the earlier results and adds one per file |
| Upload.RunBatch | app/api/upload/route.ts:41-91 | one result per file |
| Upload.CountSuccess | app/api/upload/route.ts:93 | the success count is at most the number of results |
| Upload.CountFailure | app/api/upload/route.ts:94 | the failure count is at most the number of results |
| Upload.RunFromConcat | app/api/upload/route.ts:41-91 | running over two lists is running over each in turn |
| Upload.ResultAt | app/api/upload/route.ts:41-91 | the result of file `i` is what that file meets on the disk the earlier files left |
| Upload.RunFromKeepsPaths | app/api/upload/route.ts:41-91 | a stored path stays stored while the loop goes on |
| Upload.BatchResults | app/api/upload/route.ts:41-91 | result `i` names file `i`, or `unknown` for a nameless file, in input order |
| Upload.BatchFrame | app/api/upload/route.ts:41-91 | the loop removes no path and changes no path that no named file maps to |
| Upload.CheckedBatchKeepsExisting | app/api/upload/route.ts:55-64 | with the existence check on, every file already on the disk keeps its content |
| Upload.CheckedBatchNoDuplicate | app/api/upload/route.ts:55-64 | with the existence check on, a later file with the name of an earlier stored one fails with `File already exists` |
| Upload.CountsAddUp | app/api/upload/route.ts:93-94 | the success and failure counts add up to the number of results |
| Upload.RejectionWritesNothing | app/api/upload/route.ts:6-39 | a request refused before the loop leaves the disk alone |
| Upload.ValidationOrder | app/api/upload/route.ts:12-33 | a missing target is reported before missing files, and those before the permission check |
| Upload.PostKeepsExisting | app/api/upload/route.ts:6-116 | `POST` never overwrites an existing file, whatever the form says |
| Upload.PutOverwrites | app/api/upload/route.ts:169-198 | a `PUT` with `overwrite=true` stores every named file whose write succeeds, existing or not, and flags it overwritten |
| Upload.UploadedCounts | app/api/upload/route.ts:93-101 | an accepted upload reports one result per file, with counts that add up |
| Upload.Disk.Loop | app/api/upload/route.ts:41-91 | the imperative loop yields the results and the disk of the batch function |
| Upload.Disk.Serve | app/api/upload/route.ts:6-233 | the response and the new disk are those of the handler function, for `POST` and for `PUT` |
| Config.PrefixNotSegment | lib/config.ts:51-62 | the permission test compares characters, not path segments: `/tmpx` and `/home/anna/notes` are allowed for home `/home/ann` |
| Config.AllowedUpward | lib/config.ts:57-61 | every extension of an allowed path is allowed |
| Config.EmptyOrRootDirAllowsAll | lib/config.ts:57-61 | an empty home or working directory allows every path, and a root one allows every absolute path |
| Config.DefaultPathExists | lib/config.ts:23-46 | the default path exists, or is `/` |
| Config.DefaultPathPriority | lib/config.ts:23-46 | an existing configured path wins; a configured path that is unset or missing counts as no configuration; then an existing home wins over `/` |
| Config.ConfigCache.constructor | lib/config.ts:67 | the cache starts empty |
| Config.ConfigCache.GetConfig | lib/config.ts:69-74 | the first call loads the configuration; every later call returns that same object without loading again |
| Config.GetConfigTwice | lib/config.ts:69-74 | two calls on different hosts load once and agree |
| FileOperations.LastIndexOf | lib/file-operations.ts:333 | the last position of the character, or -1 exactly when it is absent |
| FileOperations.FileExtension | lib/file-operations.ts:332-335 | a name without a dot has the empty extension; otherwise the extension is the lower-cased text after the last dot, with no dot and no upper-case letter in it |
| FileOperations.LowerKeepsLastDot | lib/file-operations.ts:332-335 | lower-casing keeps the last dot in place |
| FileOperations.ExtensionIgnoresCase | lib/file-operations.ts:332-335 | the extension does not depend on the case of the name |
| FileOperations.TextFileIgnoresCase | lib/file-operations.ts:338-347 | `isTextFile` is case-insensitive |
| FileOperations.NoDotIsNotText | lib/file-operations.ts:338-347 | a name without a dot is never a text file |
| FileOperations.MixedCaseExample | lib/file-operations.ts:332-347 | `notes.bak.MD` has extension `md` and is a text file |
| FileOperations.TrailingDotExample | lib/file-operations.ts:332-347 | `Makefile.` has the empty extension and is not a text file |
| FileOperations.FailureMessage | lib/file-operations.ts:39-55 | a not-ok response gives its `error`, or the default when that is missing or empty; a thrown `Error` gives its message; anything else thrown gives `Network error` |
| FileOperations.Single | lib/file-operations.ts:18-95 | create and rename succeed exactly on an ok response and pass its path on; a failure carries the failure message and no path |
| FileOperations.FailEach | lib/file-operations.ts:112-121 | one failed entry per path, in order, each with the message |
| FileOperations.Bulk | lib/file-operations.ts:98-286 | a batch succeeds exactly on an ok response and passes its results on (`[]` when missing); a failure gives one failed entry per input path, all with the same message |
| FileOperations.FailedBatchAllFail | lib/file-operations.ts:112-136 | a failed batch reports no success, only input paths, and a non-empty message for an HTTP failure |
| FileOperations.FailEachConcat | lib/file-operations.ts:112-136 | the failure entries of two path lists are those of each, one after the other |
| EventLog.AddById | store/events.ts:80-91 | an event whose id is present leaves the list alone; any other is appended at the end; unique ids stay unique |
| EventLog.AddByIdIdempotent | store/events.ts:80-91 | adding the same event twice is adding it once |
| EventLog.AddAllUnique | store/events.ts:80-91 | any sequence of additions keeps ids unique, keeps the earlier list as a prefix, and adds at most one event per addition |
| EventStore.Filter | store/events.ts:95-101 | a filter is never longer than its input |
| EventStore.FilterMembers | store/events.ts:95-101 | the filter keeps exactly the events whose type test matches |
| EventStore.FilterDistributes | store/events.ts:95-101 | filtering keeps the relative order of events |
| EventStore.FiltersPartition | store/events.ts:95-101 | every event lands on exactly one side of the split by type |
| EventStore.ClearByTypeKeepsOthers | store/events.ts:95-97 | clearing a type removes all of its events and leaves the events of every other type as they were, in order |
| EventStore.FilterKeepsUnique | store/events.ts:95-97 | filtering keeps ids unique |
| EventStore.Store.constructor | store/events.ts:78 | the store starts empty |
| EventStore.Store.AddEvent | store/events.ts:80-91 | adds by id and keeps ids unique |
| EventStore.Store.ClearEvents | store/events.ts:93 | empties the store |
| EventStore.Store.ClearEventsByType | store/events.ts:95-97 | drops the events of one type and keeps ids unique |
| EventStore.Store.GetEventsByType | store/events.ts:99-101 | returns the events of one type, in order, and changes nothing |
| BrowserEventStore.AddEventCases | store/browser-events.ts:31-42 | a known id is a no-op and a fresh id is appended at the end |
| BrowserEventStore.Store.constructor | store/browser-events.ts:30 | the store starts empty |
| BrowserEventStore.Store.AddEvent | store/browser-events.ts:31-42 | adds by id, keeps ids unique, and grows exactly when the id is fresh |
| BrowserEventStore.Store.ClearEvents | store/browser-events.ts:43 | empties the store |
| Selection.IsSelected | components/file-explorer/selection-manager.tsx:19-21 | a path is selected exactly when it occurs in the list |
| Selection.Remove | components/file-explorer/selection-manager.tsx:31 | the filter drops every copy of the path and keeps every other path |
| Selection.IndexOf | components/file-explorer/selection-manager.tsx:74-77 | the first position of a path, or -1 exactly when it is absent |
| Selection.PlainClick | components/file-explorer/selection-manager.tsx:46-50 | a plain click, or a shift-click without an anchor, selects exactly the clicked path and anchors there |
| Selection.CtrlClick | components/file-explorer/selection-manager.tsx:26-36 | ctrl- or meta-click flips the clicked path, keeps every other path, and anchors at the clicked path |
| Selection.ShiftClick | components/file-explorer/selection-manager.tsx:37-45 | shift-click with an anchor appends a missing path and keeps the anchor |
| Selection.RemoveConcat | components/file-explorer/selection-manager.tsx:31 | removal keeps the order and multiplicity of the other paths |
| Selection.ToggleTwice | components/file-explorer/selection-manager.tsx:62-71 | toggling twice restores a selection without the path; a selection that held the path ends with it moved to the end; the anchor is kept |
| Selection.DedupIntoFacts | components/file-explorer/selection-manager.tsx:84-87 | the dedup scan keeps its start as a prefix, has no duplicates, and holds exactly the paths scanned |
| Selection.DedupIntoConcat | components/file-explorer/selection-manager.tsx:84-87 | scanning two lists is scanning each in turn |
| Selection.DedupIntoSeen | components/file-explorer/selection-manager.tsx:84-87 | scanning paths already present adds nothing |
| Selection.DedupOfNoDup | components/file-explorer/selection-manager.tsx:84-87 | a list without duplicates is its own dedup |
| Selection.RangeNeedsBothEnds | components/file-explorer/selection-manager.tsx:73-88 | a range with a missing endpoint changes nothing |
| Selection.RangeSymmetric | components/file-explorer/selection-manager.tsx:79-82 | the range does not depend on which endpoint comes first |
| Selection.DedupUnion | components/file-explorer/selection-manager.tsx:84-87 | the set of the old selection and the range keeps the selection in order, then the new paths once each, in order |
| Selection.RangeAppendsNewPaths | components/file-explorer/selection-manager.tsx:73-88 | a range keeps the selection and the anchor and appends the paths of the range it lacked, each once, in list order |
| Selection.RangeAlreadySelected | components/file-explorer/selection-manager.tsx:73-88 | a range whose paths are all selected changes nothing |
| Selection.SelectAllAndClear | components/file-explorer/selection-manager.tsx:53-60 | select-all replaces the list and keeps the anchor; clear empties the list and drops the anchor |
| BrowserHistory.Initial | app/browser.tsx:19-20 | the history starts with the home page only |
| BrowserHistory.AfterLoad | app/browser.tsx:42-46 | a successful load of another page drops the forward entries, appends the page and moves to it; loading the current page, or a failed load, changes nothing |
| BrowserHistory.BackAsWritten | app/browser.tsx:93-100 | the back button as written keeps the history well formed |
| BrowserHistory.ForwardAsWritten | app/browser.tsx:102-109 | the forward button as written keeps the history well formed |
| BrowserHistory.BackAppendsInsteadOfMoving | app/browser.tsx:93-100 | as written, back from the second of two pages appends the first page again |
| BrowserHistory.ForwardDropsFuture | app/browser.tsx:102-109 | as written, forward from the first of three pages drops the third |
| BrowserHistory.Back | app/browser.tsx:93-100 | the intended back step keeps the entries and moves the index back by one |
| BrowserHistory.Forward | app/browser.tsx:102-109 | the intended forward step keeps the entries and moves the index forward by one |
| BrowserHistory.BackForwardRoundTrip | app/browser.tsx:93-109 | forward undoes back and back undoes forward |
| BrowserHistory.LoadThenBack | app/browser.tsx:42-46 | after loading a page, back returns to the previous page, with the loaded page as the only forward entry |
| BrowserHistory.Browser.constructor | app/browser.tsx:15-20 | the panel starts on the home page |
| BrowserHistory.Browser.Load | app/browser.tsx:24-62 | performs the history update in place; a successful load also shows the loaded address |
| BrowserHistory.Browser.Navigate | app/browser.tsx:84-91 | submit and refresh load what the address bar shows |
| BrowserHistory.Browser.Home | app/browser.tsx:111-115 | shows and loads the home page |
| BrowserHistory.Browser.TypeAddress | app/browser.tsx:161 | typing replaces the address bar text |
| BrowserHistory.Browser.GoBack | app/browser.tsx:93-100 | performs the corrected back step and shows the page it moved to |
| BrowserHistory.Browser.GoForward | app/browser.tsx:102-109 | performs the corrected forward step and shows the page it moved to |

## Left out

- Process and terminal I/O are not modelled: real PTYs, shells, the environment passed to `pty.spawn`, WebSocket transport, logging, the WebSocket `error` handlers and the HTTP listeners. A socket and a PTY are identities. What each one receives is a log.
- SIGINT in `pty-server.js` closes the WebSocket server and exits the process (lines 173-177). Only the kills before that are modelled.
- The `setTimeout` clean-up in `pty-server.js` (lines 133-143) is commented out in the source, so it is not modelled.
- `server.js` and `server/index.js` call `pty.spawn` outside any `try`. A throwing spawn would fail the whole connection handler, so the model assumes spawn succeeds there. `write` is also taken not to throw.
- `server.js` sends `{type: 'exit', code: exitCode}`, where `exitCode` is the whole object node-pty passes (exit code and signal). The model sends `Exit(exitCode, signal)`, the same frame type `pty-server.js` uses.
- JavaScript's `trim` is modelled on its ASCII white space only: space, tab, line feed, vertical tab (U+000B), form feed (U+000C) and carriage return. JavaScript also strips U+00A0, U+FEFF, U+2028, U+2029 and the other Unicode space separators; the model keeps them. `toLowerCase` is modelled on the letters `A` to `Z` only.
- `localeCompare` is modelled as character-code order on names. Any total order would serve for the properties proved.
- V8's sort algorithm is not modelled. The listing is sorted by an insertion sort, and the result is stated as sorted and a permutation of the entries. Because the comparator's order has ties, a different stable sort could order tied entries differently.
- The file route: a failure of `readFile` is an input (a file node without content), and so is a failure of `readdir` on a directory that `stat` accepts (a directory node without item names); both give the 403, as the source's catch does. The 500 branch (lines 90-95) is not modelled: nothing before the inner `try` throws. The error message text of the 403 is not modelled, and neither are the `size`, `modified` and `permissions` fields of the entries.
- `server/routes/files.js` repeats the file route's rules for express, with the same statuses. It is not modelled separately. A `path` query parameter that express parses into an array is not modelled.
- Inbound frames reduce `cols` and `rows` to an absent value or a number. In the source a JSON string such as `"120"` is also truthy, so it passes `data.cols && data.rows` in `pty-server.js` and `parsed.cols || 80` in `server.js` and reaches `resize` as a string; such frames are not modelled.
- `server.js` reads `url.query.sessionId` from `url.parse(req.url, true)` (line 110), which is an array when the parameter is repeated; the model takes the id as one optional string, as `searchParams.get` gives it in the other two servers.
- Command route: `exec`'s timeout, buffer limit and environment, and the 500 for a body that is not JSON, are reduced to the outcome passed in. Only the message of an unparsable body is kept.
- Upload route: `fs.access` is modelled as a lookup in the disk map, so it sees files only. The `size` and `modified` fields are left out, and so is a `stat` failure after a successful write. The `mkdir` failure is an input, and so is each per-file write failure.
- `formatFileSize` and `downloadFile` in `lib/file-operations.ts` are not modelled: one is number formatting with floating point; the other drives the browser's download through the DOM.
- FileOperations.Bulk: on success the server's `results` are passed on as they are. For `uploadFiles` the source also maps each result's `fileName` to `path` (lines 268-275), which the model does not do.
- The `path` field of an ok `Outcome` stands for `result.path` in `createFileOrFolder` and for `result.newPath` in `renameItem` (lines 85-88).
- The browser panel's fetched HTML, its error text and its loading flag are not modelled. A load is one atomic step whose success is an input.
- The event stores' payload fields (element, details and so on) play no part in the store logic and are left out.
- Config reads the process environment, `os.homedir()`, `process.cwd()` and `existsSync`. These are the inputs of `Config.Host`.

## Findings

| source | as written | input that shows it | evidently intended | confidence | as-written member | corrected member |
|---|---|---|---|---|---|---|
| app/browser.tsx:93-109 | `handleBack` and `handleForward` step `historyIndex`, then call `loadUrl`. Its closure still reads the old `history` and `historyIndex`: it sees a page other than the current one, appends it after the old index and moves there | back from History(["a","b"], 1) gives History(["a","b","a"], 2); forward from History(["a","b","c"], 0) gives History(["a","b"], 1) | back and forward move the index by one and keep the entries | not executed | BrowserHistory.BackAsWritten (BrowserHistory.BackAppendsInsteadOfMoving, BrowserHistory.ForwardAsWritten, BrowserHistory.ForwardDropsFuture) | BrowserHistory.Back (BrowserHistory.Forward, BrowserHistory.BackForwardRoundTrip, used by BrowserHistory.Browser.GoBack and GoForward) |
