# onion-ssh, modelled in Dafny

onion-ssh is a small Electron SSH client. It has three parts, and this project models the logic of each:

- **Main process** (`main.js`). It keeps a table of saved connection profiles, turns a profile into `node-ssh` connection parameters, and holds the most recent session in two slots local to the closure of `createWindow`: `currentSSH` (the client) and `currentShell` (its interactive shell). A newer connect that gets through the dial overwrites the slots without disposing the earlier client or shell, which stay open and keep sending output. A newer connect that fails before its dial succeeds (building the config, which reads the key file and checks for authentication, or dialling) runs the catch block instead, which disposes the held earlier client and empties both slots. The slots are driven by these events: the `connect-ssh` request, the shell's `data` and `close` events, the window's `closed` event and `ssh-input`.
- **Preload bridge** (`preload.js`). It exposes `send`, `receive` and `invoke` to the renderer. Each one checks the channel against an allow-list. `receive` subscribes a listener in the renderer's IPC table and returns a cleanup that removes it again.
- **Renderer** (`src/App.tsx`). It keeps the tab list and the active tab, the selected connection and the form state. It updates the active tab's status from notifications and bounds the sidebar drag. Its listener effect re-subscribes four notification listeners for the active tab.

Modules, one per file:

- Wrappers.dfy, module `Wrappers`: `Option`, `Result` (a value or a thrown message).
- Profiles.dfy, module `Profiles`: the profile record, JavaScript truthiness of optional fields.
- ConnectionStore.dfy, module `ConnectionStore`: `get-connections`, `save-connection`, `delete-connection`, as functions and a `Store` class.
- SshConfig.dfy, module `SshConfig`: port default, proxy agent, authentication choice, keyboard-interactive responder, `read-file` reply.
- Session.dfy, module `Session`: the slot state machine as transition functions over an effect log, traces of events, the `MainProcess` class.
- Preload.dfy, module `Preload`: the three allow-lists, the `IpcRenderer` listener table with subscribe and cleanup, event dispatch.
- Tabs.dfy, module `Tabs`: the renderer's handlers as functions on its state.
- Renderer.dfy, module `Renderer`: the renderer as an `App` class with one field per state hook, the cleanup array and the listener effect.

The calls into the SSH library and the messages to the renderer are recorded in one log of `Effect`s: `Dial`, `Notify`, `RequestShell`, `Dispose` and `Write`. Properties such as "no dial without authentication" and "`ssh-connected` before the shell request" are statements about the order of that log. Clients and shells are named by the number they were created under, so "which object" questions (which client is disposed, which shell is written) can be stated.

Where the system's design description and the code differ, the model follows the code:

- There is only the SSH backend. There is no local shell, no text-encoding conversion and no key remapping.
- There is one pair of slots for the whole window, not one per tab.
- A proxy with no host or no port is not an error. The connection is then dialled directly (`SshConfig.HalfProxyDialsDirect`).
- The keyboard-interactive responder answers with one password when the first prompt asks for one, and with no answers otherwise. It does not answer every prompt.

What the code does as written, shown by lemmas:

- A failing connect runs the catch block, and the catch block disposes whatever client the slot holds. When another tab's session is still held, that session's client is disposed (`Session.FailedConnectDisposesHeldClient`).
- The `close` handler of any shell clears both slots. When an earlier tab's shell closes, the later session's input is dropped from then on (`Session.EarlierCloseDropsLaterInput`).
- Saving a profile whose id no stored profile has changes nothing (`ConnectionStore.SaveUnknownIdIsNoOp`).
- The connect request the renderer sends carries no proxy fields, so sessions opened from the UI always dial directly, even for a profile with a proxy (`Tabs.UiRequestsDialDirect`).

## Model

| member | source | states |
|---|---|---|
| ConnectionStore.ReplaceById | main.js:44-46 | same length; each element whose id equals the new profile's id becomes the new profile, every other element is unchanged in place |
| ConnectionStore.RemoveById | main.js:56-60 | the result holds exactly the elements whose id differs from the given one, with their multiplicities; every element with that id is gone |
| ConnectionStore.Saved | main.js:42-54 | with a truthy id the length is unchanged; without one, the old list is a prefix and the new profile, carrying the fresh id, is the one added element |
| ConnectionStore.RemoveByIdAppend | main.js:58 | filtering distributes over concatenation, so the kept profiles keep their relative order |
| ConnectionStore.RemoveAbsentId | main.js:58 | deleting an id that no profile has leaves the list unchanged |
| ConnectionStore.RemoveByIdIdempotent | main.js:56-60 | deleting twice by one id equals deleting once |
| ConnectionStore.SaveNewThenDelete | main.js:42-61 | saving a profile without an id and then deleting the id it was given restores the original list |
| ConnectionStore.SaveUnknownIdIsNoOp | main.js:44-46 | saving with an id that no stored profile has leaves the list unchanged |
| ConnectionStore.SaveIdempotent | main.js:44-46 | saving the same update twice equals saving it once |
| ConnectionStore.SavedKeepsUniqueIds | main.js:42-51 | with a fresh id for a new profile, saving keeps the ids present and pairwise distinct |
| ConnectionStore.RemoveKeepsUniqueIds | main.js:56-60 | deleting keeps the ids present and pairwise distinct |
| ConnectionStore.RemoveKeepsDistinct | main.js:58 | filtering never makes two kept profiles share an id |
| ConnectionStore.Store.constructor | main.js:11 | the store starts with the persisted list |
| ConnectionStore.Store.GetConnections | main.js:38-40 | returns the stored list |
| ConnectionStore.Store.SaveConnection | main.js:42-54 | the new list is the update by id, or the old list with the new profile and its fresh id pushed at the end; unique ids are kept; the new list is returned |
| ConnectionStore.Store.DeleteConnection | main.js:56-61 | the new list is the old one without that id; unique ids are kept; the new list is returned |
| SshConfig.ResolveAgent | main.js:88-96 | an agent is set exactly when type, host and port are all truthy, the type is not `none` and the type is `socks5` or `http`; `socks5` gives the SOCKS agent, `http` the HTTPS-proxy agent; the URL is `type://host:port` |
| SshConfig.ChooseAuth | main.js:98-118 | a key path set rules out password authentication; password authentication only ever carries the profile's truthy password |
| SshConfig.BuildConfig | main.js:80-118 | fails exactly when neither a key path nor a password is truthy (with the fixed message) or when the key file cannot be read (with the prefixed message); otherwise host and user are copied, the port is the truthy port or 22, host-key checking is off, the agent is the proxy's, and the key text or the password with `password`/`keyboard-interactive` is used |
| SshConfig.ReadFileReply | main.js:64-72 | `read-file` answers the file's text, or fails with "Failed to read file: " and the reason |
| SshConfig.KeyOverridesPassword | main.js:98-108 | with a key path set, changing the password does not change the parameters |
| SshConfig.KeyFileUnusedWithoutPath | main.js:98-106 | without a key path, the key file's content has no influence |
| SshConfig.HalfProxyDialsDirect | main.js:88 | a proxy without host or without port yields no agent, and no error |
| SshConfig.ProxyRequested | main.js:88 | the proxy guard: type, host and port truthy and the type not `none`; its consequences are stated by `ResolveAgent` |
| SshConfig.ProxyUrl | main.js:89 | the proxy URL `type://host:port`; `ResolveAgent` states that the agent carries it |
| SshConfig.Includes | main.js:110 | `String.prototype.includes`; stated by `IncludesIff` |
| SshConfig.Lower | main.js:110 | lower-casing keeps the length and maps each character on its own |
| SshConfig.IncludesIff | main.js:110 | `includes` holds exactly when the text occurs at some position |
| SshConfig.KeyboardInteractive | main.js:109-114 | the responder gives at most one answer, the password, and only if there is a prompt |
| SshConfig.KeyboardInteractiveAnswers | main.js:109-114 | the responder answers with the password exactly when there is a prompt and the first prompt spells "password" in any casing somewhere; otherwise it answers nothing |
| Session.ConnectNotices | main.js:120-158 | `ssh-connected` is sent exactly when the parameters were built and the dial succeeded; an `ssh-error` is sent exactly when some step threw; both slots are empty afterwards exactly in that case |
| Session.ConfigErrorBeforeDial | main.js:80-152 | when the parameters cannot be built, the first effect is the error message on `ssh-error`, and there is no dial, no shell request and no `ssh-connected` |
| Session.NoAuthenticationNoDial | main.js:116-118 | without key path and password, the fixed message is sent and nothing is dialled |
| Session.ConnectSuccess | main.js:120-126 | a successful request dials, then sends `ssh-connected`, then requests the shell; the new client and shell are held and the shell is open |
| Session.ShellRequestFailure | main.js:122-157 | a failed shell request after a good dial sends `ssh-connected`, then the error, then disposes the new client |
| Session.FailedConnectDisposesHeldClient | main.js:150-157 | a connect whose dial fails disposes the client of the session the slot already held |
| Session.DialFailure | main.js:120-157 | a failed dial reports exactly the thrown message after the dial, disposes the client held before (if any), empties both slots and requests no shell |
| Session.ShellCloseNotice | main.js:132-139 | closing an open shell sends `ssh-disconnected` and empties both slots; its own client is disposed exactly when still connected |
| Session.ClosedListenersIdempotent | main.js:141-148 | any positive number of window `closed` listeners acts like a single one |
| Session.InputRouting | main.js:162-166 | input leaves the state unchanged and is written, once and to the held shell (an open one), exactly when a shell is held and writable; otherwise nothing happens |
| Session.EarlierCloseDropsLaterInput | main.js:132-166 | after an earlier tab's shell closes, input meant for the later session is dropped |
| Session.StepKeepsInv | main.js:34-166 | every event keeps the slots consistent: a held shell is open and belongs to the held client, and a held client always comes with a held shell |
| Session.RunKeepsInv | main.js:34-166 | any sequence of events keeps that consistency |
| Session.StepWritesOpenShells | main.js:162-166 | no event writes to a shell that is not open, or reopens it |
| Session.NoWriteAfterClose | main.js:132-166 | once a shell is not open, no later event writes to it |
| Session.ClosedShellNeverWritten | main.js:132-166 | after a shell's `close` event, no sequence of later events writes to that shell |
| Session.Connect | main.js:74-159 | the `connect-ssh` handler as a transition: a new client, the parameters, the dial, `ssh-connected`, the shell request, the new shell and one more `closed` listener, or the catch block; stated by `ConnectNotices`, `ConfigErrorBeforeDial`, `ConnectSuccess`, `DialFailure` and `ShellRequestFailure` |
| Session.Dialled | main.js:120-157 | the part of `connect-ssh` after the parameters were built: dial, `ssh-connected`, shell request, or the catch block; stated by `ConnectSuccess`, `DialFailure` and `ShellRequestFailure` |
| Session.CatchBlock | main.js:150-158 | the catch block: the message on `ssh-error`, disposal of the held client, both slots emptied; stated by `DialFailure` and `ShellRequestFailure` |
| Session.ShellData | main.js:128-130 | the `data` event of a shell the handler registered on is forwarded on `ssh-output`; the state is unchanged |
| Session.ShellClose | main.js:132-139 | a shell's `close` event; stated by `ShellCloseNotice` and `EarlierCloseDropsLaterInput` |
| Session.ClosedListener | main.js:142-148 | one window `closed` listener: disposes the held client and empties both slots |
| Session.RunClosedListeners | main.js:141-148 | every `connect-ssh` that reached the shell registered one more `closed` listener; all run in turn; stated by `ClosedListenersIdempotent` |
| Session.WindowClosed | main.js:142-148 | the window `closed` event running the registered listeners |
| Session.Input | main.js:162-166 | the `ssh-input` handler; stated by `InputRouting` |
| Session.Step | main.js:74-166 | one event of the main process dispatched to its handler; stated by `StepKeepsInv` and `StepWritesOpenShells` |
| Session.Run | main.js:74-166 | a sequence of events, effects concatenated in order; stated by `RunKeepsInv`, `NoWriteAfterClose` and `ClosedShellNeverWritten` |
| Session.MainProcess.constructor | main.js:34-35 | both slots start empty, with an empty log |
| Session.MainProcess.Catch | main.js:150-158 | the catch block sends the message on `ssh-error`, disposes the held client if any, and empties both slots |
| Session.MainProcess.ConnectSsh | main.js:74-159 | state and log after `connect-ssh` are those of the connect transition; the slot consistency is kept |
| Session.MainProcess.Dial | main.js:120-157 | state and log after the dial, the notice and the shell request are those of `Dialled` |
| Session.MainProcess.OnShellData | main.js:128-130 | an open shell's data is sent on `ssh-output`; the slots are unchanged |
| Session.MainProcess.OnShellClose | main.js:132-139 | state and log after a shell's `close` event are those of the close transition; consistency is kept |
| Session.MainProcess.OnWindowClosed | main.js:142-148 | each registered `closed` listener runs in turn, and the result is that of running them all |
| Session.MainProcess.OnSshInput | main.js:162-166 | the data is written to the held shell when it is writable, and dropped otherwise |
| Preload.Send | preload.js:7-12 | the message is forwarded unchanged exactly for `connect-ssh` and `ssh-input`, and dropped otherwise |
| Preload.Invoke | preload.js:22-28 | forwarded with all arguments exactly for the four store and file channels; otherwise rejected with "Invalid IPC channel" |
| Preload.AllowListsDisjoint | preload.js:7-28 | no channel is allowed in two directions |
| Preload.RemoveLast | preload.js:18 | `removeListener` removes at most one entry |
| Preload.RunCleanup | preload.js:18-20 | running a cleanup: the no-op, or `removeListener` on its channel and subscription; stated by `RemoveSubscribed`, `RemoveAbsent` and `CleanupTwice` |
| Preload.OnChannel | preload.js:17 | the listeners of one channel are exactly the entries of the table on that channel |
| Preload.OnChannelAppend | preload.js:16-17 | selecting a channel's entries distributes over concatenation, so listeners run in registration order |
| Preload.Dispatch | preload.js:16 | an emit calls each subscription of that channel once, in order, with the arguments after the event object |
| Preload.RemoveSubscribed | preload.js:16-18 | a subscription's cleanup removes exactly that entry, even after later subscriptions; the rest keeps its order |
| Preload.RemoveAbsent | preload.js:18 | removing a subscription that is not in the table changes nothing |
| Preload.CleanupTwice | preload.js:16-18 | running a cleanup twice has the effect of running it once |
| Preload.RemoveLastKeepsUnique | preload.js:17-18 | removal keeps subscription numbers unique and adds no entry |
| Preload.IpcRenderer.constructor | preload.js:2 | the listener table starts empty |
| Preload.IpcRenderer.Receive | preload.js:13-21 | on an allowed channel exactly one subscription is appended and its cleanup returned; otherwise nothing is registered and the no-op cleanup is returned |
| Preload.IpcRenderer.Clean | preload.js:18 | a cleanup removes its own subscription and keeps the table valid |
| Tabs.Decimal | src/App.tsx:188 | the decimal numeral is non-empty, and has one digit exactly for numbers below 10 |
| Tabs.DecimalInjective | src/App.tsx:188 | equal numerals come from equal numbers |
| Tabs.TabIdsDistinct | src/App.tsx:188 | tabs opened at different milliseconds get different ids |
| Tabs.TabIdFor | src/App.tsx:188 | the id `tab-` followed by the clock in decimal; stated by `TabIdsDistinct` |
| Tabs.FirstIndex | src/App.tsx:105 | the first position whose element satisfies the predicate, or none exactly when none does; `find` in the three lookups |
| Tabs.FindTab | src/App.tsx:235 | the first tab with that id, or none exactly when no tab has it |
| Tabs.FindTabFor | src/App.tsx:267 | the first tab opened for that connection, or none exactly when there is none |
| Tabs.FindConnection | src/App.tsx:260 | the first connection with that id, or none exactly when there is none |
| Tabs.WithoutTab | src/App.tsx:234 | the kept tabs are exactly the tabs with another id |
| Tabs.WithoutConnection | src/App.tsx:171 | the kept tabs are exactly the tabs of other connections |
| Tabs.WithoutConnectionAppend | src/App.tsx:171 | the filter distributes over concatenation, so the kept tabs keep their order |
| Tabs.SetStatus | src/App.tsx:110 | the tab with the active id gets the new status; every other tab is unchanged in place |
| Tabs.ResetForm | src/App.tsx:275-279 | nothing selected, not editing, the form back to initial values; tabs and connections untouched |
| Tabs.ResizeSidebar | src/App.tsx:76-79 | the width changes only during a drag and only to the pointer's x, and only when 100 < x < innerWidth - 200; then it becomes x |
| Tabs.NewTab | src/App.tsx:188-203 | the tab `addTab` creates: its id, the profile's name and id, the not-connected status |
| Tabs.AddTab | src/App.tsx:187-205 | `addTab`; stated by `AddTabAppendsOne` and `AddThenRemove` |
| Tabs.RemoveTab | src/App.tsx:232-244 | `removeTab`; stated by `RemoveTabSpec` and `AddThenRemove` |
| Tabs.ActivateTab | src/App.tsx:246-253 | `activateTab`: the id becomes active |
| Tabs.ConnectToSelected | src/App.tsx:255-273 | `handleConnectToSelected`; stated by `ConnectWithoutSelection`, `ConnectReusesTab`, `ConnectAddsTab`, `ConnectTwiceOpensOneTab` and `ConnectKeepsActiveValid` |
| Tabs.ConnectRequest | src/App.tsx:221-227 | the `connect-ssh` payload `addTab` sends; stated by `UiRequestsDialDirect` |
| Tabs.DeleteConnection | src/App.tsx:162-179 | `handleDeleteConnection`; stated by `DeleteConnectionSpec` |
| Tabs.SelectConnection | src/App.tsx:156-160 | `handleEditConnection` and `handleSelectConnection` (src/App.tsx:181-185): the profile in the form, its id or none selected, editing on |
| Tabs.SaveRequest | src/App.tsx:146 | the `save-connection` payload: the form's values with the selected id |
| Tabs.SaveConnection | src/App.tsx:144-154 | after `save-connection` answered: the new list stored and the form reset; a rejection changes nothing |
| Tabs.LoadConnections | src/App.tsx:134-142 | after `get-connections` answered: the list stored; a rejection changes nothing |
| Tabs.OnNotice | src/App.tsx:109-116 | the `ssh-connected`/`ssh-disconnected` callback; stated by `NoticeTouchesActiveOnly` |
| Tabs.OnError | src/App.tsx:120-123 | the `ssh-error` callback; stated by `ErrorStatus` |
| Tabs.AddTabAppendsOne | src/App.tsx:187-205 | `addTab` appends exactly one tab with the profile's id and name and the not-connected status, and makes it active |
| Tabs.RemoveTabSpec | src/App.tsx:232-243 | `removeTab` removes exactly the tabs with that id; if it was active the first remaining tab, or none, becomes active; otherwise the active tab stays; a valid active tab stays valid |
| Tabs.AddThenRemove | src/App.tsx:187-243 | closing a just-added tab gives back the old tab list, with the first tab (not the previous one) active |
| Tabs.WithoutAbsentTab | src/App.tsx:234 | filtering an id no tab has changes nothing |
| Tabs.WithoutTabAppend | src/App.tsx:234 | the id filter distributes over concatenation |
| Tabs.ConnectWithoutSelection | src/App.tsx:255-264 | with no selection, or a selection not among the connections, nothing changes |
| Tabs.ConnectReusesTab | src/App.tsx:266-269 | when the connection already has a tab, no tab is added and the first tab of that connection (the one `tabs.find` returns) becomes active |
| Tabs.ConnectAddsTab | src/App.tsx:266-273 | when the selected connection has no tab, exactly one tab for it is appended and made active |
| Tabs.ConnectTwiceOpensOneTab | src/App.tsx:255-273 | connecting twice gives the same tab list as connecting once |
| Tabs.ConnectKeepsActiveValid | src/App.tsx:255-273 | connecting keeps the active tab naming an existing tab |
| Tabs.DeleteConnectionSpec | src/App.tsx:162-174 | deleting a connection stores the answered list, closes exactly its tabs in order, clears the active tab if the active tab was one of them and otherwise keeps it, and resets the form exactly when it was selected |
| Tabs.NoticeTouchesActiveOnly | src/App.tsx:109-116 | a connected or disconnected notice sets the message as the active tab's status and leaves every other tab, and every id, unchanged |
| Tabs.ErrorStatus | src/App.tsx:120-123 | an error notice sets the active tab's status to the prefixed message |
| Tabs.UiRequestsDialDirect | src/App.tsx:221-227 | the request dials the profile's server with its credentials exactly as the profile without its proxy would, so never through an agent |
| Renderer.CleanupsOf | src/App.tsx:125 | one cleanup per listener, in order, each naming that listener |
| Renderer.Subscriptions | src/App.tsx:109-125 | the four listeners the effect registers for the active tab, in order |
| Renderer.ApplyCall | src/App.tsx:109-123 | one callback on the tab list: status set for notices and errors, nothing for output |
| Renderer.HandlersAreNotifications | src/App.tsx:109-123 | the subscribed callbacks for the active tab with message m give the tab list of `Tabs.OnNotice` (connected, disconnected) and `Tabs.OnError` (error); output leaves it unchanged |
| Renderer.ApplyCalls | src/App.tsx:109-123 | the callbacks of one emit in order; stated by `NotificationUpdatesStatus` |
| Renderer.RemoveOldest | src/App.tsx:101 | running the oldest listener's cleanup leaves exactly the later listeners |
| Renderer.NotificationUpdatesStatus | src/App.tsx:109-123 | with the four listeners of the active tab subscribed, a notice sets the message as its status, an error sets the prefixed message, and output leaves the tabs unchanged |
| Renderer.App.constructor | src/App.tsx:45-57 | the initial state hooks and an empty cleanup array |
| Renderer.App.RefreshIpcListeners | src/App.tsx:99-131 | all earlier listeners are removed; afterwards the table holds exactly the four listeners of the active tab, or none when the active tab does not exist; the cleanup array names them |
| Renderer.App.Unsubscribe | src/App.tsx:101-102 | every earlier cleanup runs, oldest first: the table becomes `Preload.RunCleanups` of the old table and cleanups, which is empty; the cleanup array ends empty, and subscription numbering goes on |
| Renderer.CleanupsEmptyTable | src/App.tsx:101-102 | running the cleanups a table's subscriptions returned, oldest first, empties that table |
| Preload.RunCleanups | src/App.tsx:101-102 | the listener table after several cleanups run in order; stated by `CleanupsEmptyTable` and `App.Unsubscribe` |
| Renderer.App.SubscribeActive | src/App.tsx:105-125 | from an empty table, the four listeners of the active tab are subscribed exactly when it exists, and the cleanup array names them |
| Renderer.App.Deliver | src/App.tsx:109-123 | each subscribed callback runs in order on the tab list |
| Renderer.App.ConnectToSelectedClicked | src/App.tsx:255-273 | the state after the click is the connect-to-selected function's |
| Renderer.App.RemoveTabClicked | src/App.tsx:232-244 | the state after closing a tab is `removeTab`'s |
| Renderer.App.ActivateTabClicked | src/App.tsx:246-253 | the clicked tab becomes active |
| Renderer.App.ResetFormClicked | src/App.tsx:275-279 | the form is reset |
| Renderer.App.SelectConnectionClicked | src/App.tsx:156-160 | the profile is in the form, selected by its id (or none), editing on; the select button at src/App.tsx:181-185 does the same |
| Renderer.App.DeleteConnectionClicked | src/App.tsx:162-179 | the state after a delete is the delete function's; a rejected call changes nothing |
| Renderer.App.SaveConnectionSubmitted | src/App.tsx:144-154 | sends the form's values with the selected id; on an answer, stores the list and resets the form |
| Renderer.App.LoadConnectionsOnMount | src/App.tsx:134-142 | on an answer, the connections are the loaded list |
| Renderer.App.StartResizing | src/App.tsx:65-68 | a drag starts |
| Renderer.App.StopResizing | src/App.tsx:71-73 | the drag ends |
| Renderer.App.MouseMoved | src/App.tsx:75-85 | the sidebar width becomes the drag-bounded width |

## Left out

- Electron window, menu and application lifecycle (main.js:13-32, 169-183): platform start-up. The model has one window and one `MainProcess`. A second `createWindow` (the macOS `activate` at main.js:172-174) is not modelled. It would register the `ipcMain.handle` channels again, which Electron refuses, or at least add further `connect-ssh`/`ssh-input` listeners beside the first closure's slots. So the model says nothing about a re-created window.
- `node-ssh` dialling, `requestShell` and the proxy-agent constructors: foreign libraries. Their outcomes are the `dial` and `shellRequest` parameters, and the agent is a tag with its URL. An agent constructor that throws on a malformed URL is not modelled.
- `fs.readFile` for the key and for `read-file`: file I/O. Its outcome is the `FileRead` parameter.
- electron-store persistence: the stored list is the `Store.connections` field.
- `uuidv4()`: the `freshId` parameter, required to be non-empty and unused.
- `shell.writable`, `ssh.isConnected()` and `data.toString()`: backend state and decoding. They are event parameters, and shell output is text.
- `console.log` and `console.error`: logging only.
- Asynchronous interleaving: each handler runs as one step of a sequential trace. In particular `connect-ssh` is one step from dial to shell, so no other event can fall between its awaits. This hides a reachable state. An old shell's `close` (main.js:132-139) can fire after `currentSSH = ssh` (main.js:122) and before `currentShell = shell` (main.js:126). The new client's slot is then cleared while its shell is stored, so a shell is held with no client. Neither the catch block (main.js:150-158) nor the `closed` listener (main.js:142-148) then disposes that client. `Session.Inv`, `Session.StepKeepsInv` and `Session.RunKeepsInv` hold only for the atomic model.
- React's batching of state updates: handlers see the current state.
- SshConfig.Lower: only the letters A to Z are lower-cased; JavaScript's full Unicode case mapping is not modelled.
- SshConfig.BuildConfig: the port is a number, with 0 or absent meaning 22. A port that arrives as text from the form's number input, or NaN, is not modelled. The proxy port is text.
- The renderer's terminal (xterm `Terminal`, `FitAddon`, `termInstance.write` of messages and output), antd widgets and `message` toasts: UI rendering. So `ssh-output` changes no tab state.
- `setTimeout` in `addTab` and `activateTab`: timing. The deferred `connect-ssh` send is modelled only as its payload (`Tabs.ConnectRequest`), and the terminal's `onData` to `ssh-input` wiring is not modelled.
- The active tab's `termInstance` is always set for tabs made by `addTab`, so the listener effect subscribes exactly when the active tab is found.
- Tabs.SelectConnection: the form is replaced by the profile. antd's `setFieldsValue` merges, so a field the stored profile lacks keeps the value it had in the form. That merge is not modelled.
- Renderer.Arg: callbacks are shown as receiving one text argument. Without one it stands for `undefined` printed as text, which the main process never causes.
