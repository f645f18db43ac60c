# Verified model of the panel's state machines

The panel keeps an external system (two proxy cores, nginx, the firewall, OS accounts) in
step with a database, and does so with small state machines that fail half way, skip work
that looks unneeded, and remember things in memory. This project models those state
machines in Dafny and proves what they keep over every run.

Each file models one part. Code that changes state in place is a class (`Core`,
`StatsPoller`, `ClientApi`, `Provisioner`, `SshPanel`, `InboundApi`, `AccessLog`,
`SingboxStats`, `Ledger`, `Limiter`, `WsProxy`, `LoginGuard`, `SshHost`) whose methods are
proved equal, loop by loop, to functions on values; the theorems are lemmas about those
functions over all inputs, all outcomes of the outside world, and all runs. What a request
writes, who gets in, and what a poll flags are stated by the columns of the rows themselves,
without naming the functions that compute them.

| file | part |
|---|---|
| Decimal, Tags, Protocols | decimal rendering, listener tags, port keys |
| Models, Render, Core, Serving | the rows, the rendered configs, a core (file, process, live user API), who a loaded config lets in |
| Enforcer, Poller | the enforcement poll from cores in step, its loops |
| Access | who gets in, with what credential and where, told by the columns of the rows |
| Drift, Resync | a poll, and each edit helper, from any state of the cores |
| Runs | whole runs of polls, clock, usage, restarts and requests of every kind |
| IpLimits, AccessLog | the over-limit flag with its hysteresis, the table of source IPs |
| ClientEdits, Provisioning | client requests as steps on both cores, the bot's replacement |
| SshQuota, Sessions | the OS lock of SSH accounts, the session cap |
| Registry, Acceptance | the port registry; which requests it takes, and what they write |
| Routing, Nginx, Firewall | what follows from the registry for nginx, xray and the firewall |
| Stranded, Collisions | concrete tables, requests and runs that meet the failing conditions below |
| Ledger | connection counters, deltas, billing |
| Limiter, LoginGuard | the WebSocket proxy's connection cap, login throttling |

How the outside world appears: a live user call (`adu`, `rmu`) has an outcome, the set of
listeners it landed on and its report. A report of success means that it landed on all of
them; a failed call may have landed anywhere. `Possible` says this and the lemmas hold for
every possible outcome. A restart loads the file on disk. Handlers and polls read the clock
once, and the clock never goes back. In the theorems about convergence, generated configs
validate (`Accepted`) and restarts succeed; elsewhere a rejected config or request is a
branch of the model. Row ids are not reused, and clients have their credential stored.

## Findings

The code does not give these properties unconditionally. Each is stated with its exact
condition, and with a concrete accepted input or run that fails it.

- An edit that leaves the rendered config unchanged (a comment, an IP cap) can disconnect
  a usable client: `_apply_sync` removes the user from the process, the re-add fails, and
  the fallback `apply` sees an unchanged file and skips the restart.
  `ClientEdits.UpdateSafeIffNotFragile` is the exact condition, and
  `Stranded.EmptyPatchDisconnects` an empty patch that does it.
- From cores that are not in step (a client expired since the last poll, a call landed half
  way), each edit helper still ends in sync for all outcomes under an exact condition:
  `Resync.ApplySyncsIff`, `Resync.AddSyncsIff`, `Resync.RemoveSyncsIff`,
  `Resync.ResyncSyncsIff`. If the file on disk already is the wanted one, the reload is
  skipped and the process must have been right; if it is not, what counts is the process
  after confirmed calls.
- `apply_replace` says that a full reload purges the old user from an inbound without live
  operations (`backend/zeta/core/provisioning.py:89-96`). When both inbounds are on Xray,
  `persist_config` has already written the file, `apply` skips the restart, and the old
  user stays. The mirror case leaves the new client unloaded.
  `Provisioning.ReplaceInSyncIff` is the exact condition with confirmed live calls;
  `Stranded.BertNeverUnloaded` and `Stranded.DoraNeverLoaded` are an instance each.
- Between two inbounds with live operations, the confirmed removal has written the file
  with the new client in it; if the addition then fails, the fallback `apply` skips the
  restart and the new client is never loaded (`Stranded.EmmaNeverLoaded`).
  `Provisioning.ReplaceSafeIff` is the exact condition under which a replacement ends in
  sync whatever its live calls do.
- A poll acts on transitions of its memo only, and reloads only a file that changes. From
  any cores and any memo it converges for all outcomes if and only if `Drift.Fit`
  (`Drift.PollConvergesIff`; over whole runs `Runs.EveryPollConvergesIff`). Two runs of
  ordinary requests end in a state that no poll repairs. In one the memo already holds the
  client that a usage reset put back (`Stranded.AnnaStaysConnected`). In the other a
  confirmed edit of a VLESS client has written a file without the SOCKS client that ran
  over its cap, so the poll's reload is skipped (`Stranded.BertStaysConnected`). Without
  requests every poll converges (`Runs.EveryUnattendedPollConverges`).
- A port key takes a fronted path that is the bare word "tcp" for a port's family
  (`Protocols.PortKeyConfusesFamilyPath`). Rows accepted by the API cannot have it, since
  accepted fronted paths start with "/" (`Routing.AcceptedRow`).
- A fronted inbound's loopback listener is port 20000 + id, which no check compares with
  the direct ports, its own extra ports included. `Routing.ListenersShareNoPort` and
  `Routing.SharedPortWithoutClearance` together are an if-and-only-if;
  `Collisions.OwnExtraPort` is one accepted request.
- `network` is not compared with the protocol, so a hysteria2 or tuic inbound with network
  "ws" on port 443 gets an nginx location that leads to no listener
  (`Collisions.QuicBehindNginx`). Every location leads home to the one listener of its row
  if and only if no such row is enabled and the loopback ports are clear
  (`Routing.RoutingAgreesIff`).
- Deleting an inbound, or moving it off a port, revokes UDP rules that an inbound of the
  other family may still need (a shadowsocks or socks port also used by hysteria2 or tuic):
  `Routing.DeleteExactIff`, `Routing.UpdateExactIff`, over runs `Routing.FirewallExactIff`;
  `Collisions.DeleteClosesTooMuch` and `Collisions.UpdateClosesTooMuch` are an instance each.
- The handlers take a shadowsocks inbound whose settings have no "method" for a
  single-user one (`backend/zeta/api/clients.py:173`), the renderer for a multi-user one
  (`backend/zeta/core/xray.py:202`): such an inbound accepts one client only. The model
  follows each.
- The sweep of login buckets weakens the attempt bound when the lockout is longer than the
  sweep age: `LoginGuards.BoundedIff`. With the shipped values (300 s, 3600 s) it holds.
- The pruned IP table counts exactly when the enforcement window is no longer than the
  online window: `AccessLogs.ExactIffWindowsNest`. With the shipped values (10 s, 12 s) it
  holds.
- The sing-box ledger forgets its counters with the panel process. Over any run with
  restarts, what is billed is the connections' last counters plus what was already billed
  for the connections that the first answered poll after a restart still lists
  (`Ledgers.DeltasAddUp`), so conservation holds if and only if that sum is zero
  (`Ledgers.DeltasAddUpIff`). `Ledgers.RestartBillsTwice` bills one connection twice.

## Model

| member | source | states |
|---|---|---|
| `Decimal.RoundTrip` | backend/zeta/core/protocols.py:209-228 | Ports are rendered in decimal without loss: a rendered port is digits only and reads back as itself. |
| `Tags.BaseTagOfListener` | backend/zeta/tasks.py:119-122 | The suffix rule folds every listener tag of a row, primary or extra, back to the row's tag. |
| `Tags.ListenerTagsDistinct` | backend/zeta/core/xray.py:422-427 | A row with distinct extra ports names its listeners with pairwise distinct tags. |
| `Render.QueryMembers` | backend/zeta/core/xray.py:289-330 | The rows a config is rendered from are exactly the enabled rows of that core, whatever the sort order. |
| `Render.ListenerTagsMatch` | backend/zeta/core/xray.py:422-427 | The tags used by live user calls are, in order, the tags of the listeners the row renders. |
| `Render.FlattenFillsSlots` | backend/zeta/core/xray.py:230-272 | A config is the rows' listeners in order, each filled from its own row's clients; who is served changes neither their number nor their order. |
| `Protocols.PortKeyExact` | backend/zeta/core/protocols.py:180-228 | Two inbounds get equal keys if and only if they want the same binding: the same nginx path, or the same port and L4 family. |
| `Protocols.PortKeyConfusesFamilyPath` | backend/zeta/core/protocols.py:209-228 | Without a leading "/" the key is not exact: a path "tcp" collides with direct port 80. |
| `Resync.AppliedRightIff` | backend/zeta/core/xray.py:364-399 | A full apply with an accepted config leaves file and process those of the rendered config if and only if the file was out of date, the process was right already, or the core is sing-box without rows and is stopped. |
| `Cores.Core.AddUserLive` | backend/zeta/core/xray.py:430-454 | Only entries of this email at the row's listeners change, and each changed entry carries the account's own credential: its uuid for VLESS (with its flow) and VMess, its password for Trojan; success means every listener of the row has it. |
| `Cores.Core.RemoveUserLive` | backend/zeta/core/xray.py:457-474 | Only entries of this email at the row's listeners change, and a changed listener has lost it; success means no listener of the row has it, though a failure may have removed it from some. |
| `Cores.Core.PersistConfig` | backend/zeta/core/xray.py:477-484 | The file becomes the rendered config and the process keeps what it runs. |
| `Cores.AddOnCompose` | backend/zeta/core/xray.py:430-454 | Adding a user listener by listener amounts to adding it on the union of the listeners. |
| `Cores.RemoveOnCompose` | backend/zeta/core/xray.py:457-474 | Removing a user listener by listener amounts to removing it on the union of the listeners. |
| `Serving.AllTagsDistinct` | backend/zeta/core/xray.py:269-272 | Over the whole table, both cores and disabled rows included, all listener tags are pairwise distinct, and each folds back to the row that owns it. |
| `Serving.RenderedTags` | backend/zeta/core/xray.py:289-330 | A rendered config's tags are, in order, those of the core's listeners in that table, whoever is served. |
| `Serving.AdmitsExactly` | backend/zeta/core/xray.py:183-227 | An email is let in at a listener of either core, user table or account list, if and only if it belongs to a served client of that row and the row is not legacy Shadowsocks. |
| `Access.Credential` | backend/zeta/core/xray.py:168-227 | A served client is let in by its own credential: VLESS by uuid and flow, VMess by uuid, TUIC by uuid and password, Trojan, Shadowsocks-2022, SOCKS, HTTP and Hysteria2 by password, and nothing else of the row is given away. |
| `Access.FiledCredentials` | backend/zeta/core/xray.py:183-227 | The users of a listener in the file are its inbound's served clients, in table order, each with that credential. |
| `Access.RowShows` | backend/zeta/core/xray.py:230-272 | A config has each listener of each enabled row of its core: its tag, address, port, transport, path and security follow from the row's columns, and only the primary of a row behind nginx is on 127.0.0.1 in plain text. |
| `Access.ListenerHasRow` | backend/zeta/core/singbox.py:98-126 | A config has no other listeners. |
| `Access.ListenersOrdered` | backend/zeta/core/xray.py:279-286 | Listeners come in the order of their rows' ports. |
| `Access.UpdateShows` | backend/zeta/api/inbounds.py:359-361 | After an update that goes through, every listener of the row has the transport, path, settings and security that the request names, and the old ones where it names none; only the loopback primary has security "none". |
| `Serving.LegacyPassword` | backend/zeta/core/xray.py:213-214 | A legacy Shadowsocks listener has one password: the first served client's of its row, or the row's own if nobody is served. |
| `Serving.ConfigAgree` | backend/zeta/core/xray.py:289-330 | A config depends on who is served only through the clients of that core's enabled rows. |
| `Serving.LiveEffectAt` | backend/zeta/core/xray.py:430-474 | A live call touches one client's entry at its own row's listeners only, leaves there the old or the wanted entry, and the wanted one if it reported success. |
| `Serving.LiveCallSwitches` | backend/zeta/core/xray.py:430-474 | A confirmed live call turns the process of one config into the process of the config that differs in that client; an unconfirmed one is harmless if the two configs coincide. |
| `Enforcer.SweepCut` | backend/zeta/tasks.py:285-305 | After k clients the memo is settled for those k and untouched for the rest, whatever the live calls did. |
| `Enforcer.SweepFlags` | backend/zeta/tasks.py:293-314 | Until a transition is recorded for a core, every client visited so far already matched the file of that core. |
| `Enforcer.SweepTables` | backend/zeta/tasks.py:296-314 | Mid-poll, each listener's table holds for every email the old config's entry or the new one's, and the new one's for visited clients while no call has failed. |
| `Enforcer.SweepRuns` | backend/zeta/tasks.py:296-324 | After the sweep, if no restart is due or the configs coincide, the process is already that of the new config. |
| `Enforcer.AppliedSyncs` | backend/zeta/core/xray.py:364-399 | A full apply synchronises a core that ran its file, and one whose file is out of date, drifted or not. |
| `Enforcer.PollConverges` | backend/zeta/tasks.py:277-324 | From file = process on both cores and a truthful memo, one poll ends with process = file = rendered config on both cores and the memo equal to the enabled unusable clients, for every outcome of every live call. |
| `Access.LetInIff` | backend/zeta/models.py:183-204 | After convergence, a client is let in at a listener of either core if and only if the listener is of its inbound and names its users, and the client is switched on, has no expiry or one still to come, has no data cap or used less than it, and is not flagged for too many IPs. |
| `Access.MemoIff` | backend/zeta/tasks.py:285-301 | After convergence, the memo holds a client if and only if it is switched on and past its expiry, at its data cap, or flagged. |
| `Access.LegacyPasswordIff` | backend/zeta/core/xray.py:213-214 | After convergence, a legacy Shadowsocks listener has the password of the first such client of its inbound in table order, or the inbound's own if there is none. |
| `Access.OverCapIsCut` | backend/zeta/tasks.py:229-324 | In every run without requests, a client whose poll shows more IPs than its cap is let in nowhere after that poll. |
| `Poller.StatsPoller.EnforceLimits` | backend/zeta/tasks.py:277-324 | The imperative poll over memo, rows and cores produces exactly the state the convergence theorem speaks of, with outcomes a live call can have. |
| `Poller.StatsPoller.VisitAll` | backend/zeta/tasks.py:285-314 | The loop over enabled clients, with its three flags, computes the sweep and prunes both memos of ids no longer enabled. |
| `Poller.StatsPoller.Visit` | backend/zeta/tasks.py:293-314 | One client's visit changes the memo and its row's user tables and records which core needs a reload; the file is untouched. |
| `Poller.StatsPoller.UpdateIpLimits` | backend/zeta/tasks.py:229-274 | After the loop only flags have changed: a row is flagged if and only if it is capped and either over its cap now, or flagged before and not yet under its cap for 60 seconds of the memo. |
| `IpLimits.FlagFirstAt` | backend/zeta/tasks.py:253-273 | A row's new flag and memo entry depend on its own flag, memo entry and counts only. |
| `IpLimits.MemoLocal` | backend/zeta/tasks.py:229-274 | After the loop, every id's memo entry is the one it had, unless a capped row of that very id stepped it: no row moves another's entry, and entries of absent or uncapped rows stay. |
| `IpLimits.SinceStartsStreak` | backend/zeta/tasks.py:266-272 | The memo always holds the time at which the current unbroken under-limit streak started. |
| `IpLimits.OverLimitFlags` | backend/zeta/tasks.py:262-265 | A poll over the cap leaves the flag set and clears nothing. |
| `IpLimits.ClearEndsStreak` | backend/zeta/tasks.py:266-270 | Every clear ends an unbroken under-limit streak of polls that began at least 60 s before. |
| `IpLimits.FlagDecided` | backend/zeta/tasks.py:253-273 | Over any run of polls, a flag is set by a poll over the cap, and a set flag is cleared exactly by a poll that ends an under-cap streak of 60 seconds or more, counted from the first poll remembered. |
| `IpLimits.RowFlagDecided` | backend/zeta/tasks.py:229-274 | The same for each row of the table under the loop over all rows, with the cap and the counts of its email. |
| `IpLimits.TableFollowsTicks` | backend/zeta/tasks.py:229-274 | A row's flag and memo entry follow its own polls only, and a row without a cap never keeps a flag. |
| `IpLimits.ClearsBounded` | backend/zeta/tasks.py:253-273 | However a client flaps, any window of length T holds at most floor(T/60) + 1 clears. |
| `Runs.PollReady` | backend/zeta/tasks.py:277-294 | In every world that orderly runs reach, a poll finds the premises of convergence, also right after a restart emptied the memos. |
| `Runs.NextSound` | backend/zeta/tasks.py:229-324 | Clock, usage, restarts, polls and requests that end in sync all keep the invariant from which polls converge, and each poll converges. |
| `Runs.EveryPollConvergesIff` | backend/zeta/tasks.py:229-324 | After any run of clock, usage, restarts, polls and requests of every kind with any outcomes, however the cores have drifted, the next poll ends with exactly the usable clients served and a truthful memo, for every outcome of its calls, if and only if the state it starts from is fit. |
| `Runs.RestoredRunsConverge` | backend/zeta/tasks.py:229-324 | However far a run has let the cores drift, one request that ends in sync or one fit poll restores them, and every poll of an orderly rest of the run converges. |
| `Runs.SyncedRequestsOrderly` | backend/zeta/api/clients.py:158-309 | Client requests and replacements on cores in step end in sync for every outcome of their calls, fragile edits and unsafe replacements apart, so they are orderly. |
| `Runs.EveryUnattendedPollConverges` | backend/zeta/tasks.py:229-324 | From a synchronised start, every poll of every run of clock, usage, restarts and polls converges, with no hypothesis on the memo or on the outcomes of live calls. |
| `Drift.SettledMemoHidesEverything` | backend/zeta/tasks.py:293-301 | When the memo already equals the unusable clients, a poll changes nothing at all, so it converges only if the cores were already right. |
| `Drift.CurrentFileKeepsRunning` | backend/zeta/core/xray.py:364-388 | When the file is current, a poll whose live calls land nowhere, or that makes none, leaves the process as it is. |
| `Drift.OthersUndisturbed` | backend/zeta/tasks.py:296-314 | When the clients that turn are on VLESS, VMess or Trojan inbounds and their calls are confirmed, Xray is not restarted: every listener keeps its shape and every other client its entry, even in a process that has drifted. |
| `Drift.RejectedReload` | backend/zeta/core/xray.py:364-388 | A poll whose reload Xray rejects keeps the file; of its work only the live calls stay. |
| `Drift.PollConvergesIff` | backend/zeta/tasks.py:277-324 | From any files, any processes and any memo, a poll converges on both cores for every outcome of its live calls if and only if, on each core, nothing turns and the core is right, or the file is current and the process right, or the file changes and a reload is forced or the confirmed calls make the process right, or sing-box is to be stopped. |
| `Drift.XrayFitForSets` | backend/zeta/tasks.py:293-324 | For a file that serves one set of clients and a process that serves another, the Xray condition in terms of the two sets: which of the rendered configs coincide, and who turns. |
| `Resync.ApplySyncsIff` | backend/zeta/api/clients.py:54-68 | A full apply from any state ends in sync if and only if the other core is right and this one's file changes, its process is right, or it is to be stopped. |
| `Resync.AddSyncsIff` | backend/zeta/api/clients.py:71-87 | A live add from any state ends in sync for every outcome if and only if sing-box is right and the process is right if the file is current, or is made right by the add if it is not. |
| `Resync.RemoveSyncsIff` | backend/zeta/api/clients.py:90-97 | The same for a live removal. |
| `Resync.ResyncSyncsIff` | backend/zeta/api/clients.py:100-117 | The same for an edit's removal and re-add; with a current file, a client that stays usable on an enabled row must also have been renamed. |
| `Stranded.EmptyPatchDisconnects` | backend/zeta/api/clients.py:100-117 | An empty patch on a usable VLESS client is accepted and fragile, and has outcomes that leave it disconnected. |
| `Stranded.BertStaysConnected` | backend/zeta/core/xray.py:477-484 | A run: a SOCKS client reaches its cap, a VLESS client is edited with confirmed calls, and from then on no poll at that time disconnects the SOCKS client. |
| `Stranded.AnnaStaysConnected` | backend/zeta/tasks.py:293-301 | A run: a client is cut, its usage reset and its cap reached again between two polls, and no poll at that time disconnects it. |
| `ClientEdits.ClientApi.ApplySync` | backend/zeta/api/clients.py:100-117 | The edit's removal, re-add, persist and fallback on the cores, in the code's order and with its guards, give the resync function's state. |
| `ClientEdits.ClientApi.CreateClient` | backend/zeta/api/clients.py:158-221 | A refused or rejected request leaves the table as it was; otherwise the new row is its last, and the cores went through the add path. |
| `ClientEdits.ClientApi.UpdateClient` | backend/zeta/api/clients.py:224-272 | A request that goes through writes the columns it names in its row and no others, drops the over-limit flag of a lifted IP cap, and touches no other row; the cores went through the resync path. A refused one changes no row. |
| `ClientEdits.ClientApi.DeleteClient` | backend/zeta/api/clients.py:275-289 | The row goes and the cores take the remove path, in that order. |
| `ClientEdits.LiveThenApply` | backend/zeta/api/clients.py:71-97 | A live call followed by persist when confirmed, or by a full apply when not, ends in sync in either case. |
| `ClientEdits.CreateKeepsSync` | backend/zeta/api/clients.py:158-221 | Creating a client keeps database, file and process in agreement on both cores for every outcome of the live add, and it succeeds exactly when the inbound exists, the email is free and the inbound has room. |
| `ClientEdits.DeleteKeepsSync` | backend/zeta/api/clients.py:275-289 | Deleting a client keeps both cores in sync for every outcome of the live removals. |
| `ClientEdits.UpdateKeepsSync` | backend/zeta/api/clients.py:224-272 | Editing a client keeps both cores in sync if the live calls are confirmed, or for every outcome if the edit is not fragile. |
| `ClientEdits.FragileEditDisconnects` | backend/zeta/api/clients.py:100-117 | A fragile edit has possible outcomes after which the request succeeds and a usable client is missing from a listener the file gives it. |
| `ClientEdits.UpdateSafeIffNotFragile` | backend/zeta/core/xray.py:364-388 | An edit is in sync after every possible outcome if and only if it is not fragile. |
| `ClientEdits.ResetKeepsSync` | backend/zeta/api/clients.py:292-309 | Resetting usage zeroes both counters and keeps both cores in sync, reviving an over-quota client. |
| `ClientEdits.CreateAcceptedIff` | backend/zeta/api/clients.py:158-185 | With accepted configs, a client is created if and only if its inbound exists, no client has its email, and the inbound is not a single-user Shadowsocks one that has a client. |
| `ClientEdits.UpdateAcceptedIff` | backend/zeta/api/clients.py:236-239 | With accepted configs, an edit goes through if and only if no other client has the email it asks for. |
| `ClientEdits.FailureKeepsFiles` | backend/zeta/api/clients.py:54-68 | A request that fails leaves the table and both files as they were, whatever its live calls did before. |
| `ClientEdits.SuccessIsFiled` | backend/zeta/api/clients.py:54-117 | A request that goes through leaves the file of its inbound's core current, whatever its live calls did and whether or not configs are accepted. |
| `ClientEdits.RejectedEditChangesNothing` | backend/zeta/api/clients.py:104-109 | An edit that Xray would reject changes nothing at all, the process included. |
| `Provisioning.Provisioner.ApplyReplace` | backend/zeta/core/provisioning.py:62-101 | The reassignments of old_ib and removed_ok, the live calls and the reloads end in the state of the replacement function. |
| `Provisioning.NewNeverLoadedFails` | backend/zeta/core/provisioning.py:76-101 | Live-capable old inbound, reload-only new one: the file has the new client and the process never loads it. |
| `Provisioning.OldNeverUnloadedFails` | backend/zeta/core/provisioning.py:85-97 | Reload-only old inbound, live-capable new one: the file drops the old client and the process keeps it. |
| `Provisioning.ReplaceInSyncIff` | backend/zeta/core/provisioning.py:62-101 | With confirmed live calls, a replacement ends in sync on both cores if and only if it is neither of those two combinations. |
| `Provisioning.ReplaceSafeIff` | backend/zeta/core/provisioning.py:62-101 | A replacement ends in sync on both cores for every outcome of its live calls if and only if: in place, the file changes or the old client did not show in it; from another live-capable inbound, the new client does not show on Xray; from a reload-only one, the old client is not left on Xray by a live addition. |
| `Stranded.EmmaNeverLoaded` | backend/zeta/core/provisioning.py:70-98 | A VLESS client replaced by a Trojan one: the removal lands, the addition does not, and the new client is in the file and not in the process. |
| `Provisioning.ReplacedCredentials` | backend/zeta/core/provisioning.py:62-101 | Then the new email is let in at every listener of its inbound exactly if usable, and at no other listener of either core; the old email is let in at no listener of either core. |
| `Provisioning.ReplacedPassword` | backend/zeta/core/provisioning.py:62-101 | If the new inbound is legacy Shadowsocks and has no other client, its listener's password is the new client's. |
| `Provisioning.SuccessIsFiled` | backend/zeta/core/provisioning.py:62-101 | A replacement that reports success leaves the files of both inbounds' cores current, whether or not configs are accepted. |
| `Stranded.DoraNeverLoaded` | backend/zeta/core/provisioning.py:76-101 | A VLESS client replaced by a SOCKS one with all calls confirmed: not in sync. |
| `Stranded.BertNeverUnloaded` | backend/zeta/core/provisioning.py:85-97 | A SOCKS client replaced by a VLESS one with all calls confirmed: not in sync. |
| `SshQuota.NextOk` | backend/zeta/api/ssh.py:58-77 | Every step of a handler, of the poll loop and of the outside keeps each account's invariant for the phase its request is in. |
| `SshQuota.EveryRunSettles` | backend/zeta/tasks.py:188-226 | However commits, reconciles and poll visits interleave, an account without a request in flight is locked if disabled, unlocked if enabled and under its cap, and in the memo only if locked and over it. |
| `SshQuota.PollDecidesLock` | backend/zeta/tasks.py:188-226 | After an undisturbed poll an account is locked if and only if it is disabled or over its cap, and in the memo if and only if enabled and over it. |
| `SshQuota.SshPanel.EnforceSshQuota` | backend/zeta/tasks.py:188-226 | The poll loop over capped accounts performs a query and one visit per account, in any order, and ends in the polled state. |
| `SshQuota.SshPanel.Handle` | backend/zeta/api/ssh.py:140-267 | An undisturbed request writes its columns (an edit those it names, an unlock the switch, a reset the counter) and ends with its account locked if and only if switched off or at its cap, so a reset of an enabled account unlocks it at once; no other account changes. |
| `SshQuota.SshPanel.Lock` | backend/zeta/api/ssh.py:207-220 | An undisturbed lock disables and locks its account and changes nothing else. |
| `Sessions.ExcessIsNewest` | backend/zeta/core/ssh_manager.py:279-305 | With distinct start times, a call goes for a session if and only if at least max_login sessions of the account are older. |
| `Sessions.ExcessSize` | backend/zeta/core/ssh_manager.py:300-303 | A call goes for exactly the sessions above the cap in number, and for none that is older than a session it keeps, ties included. |
| `Sessions.EnforcedMembers` | backend/zeta/core/ssh_manager.py:302-305 | A process is gone after the call if and only if it was an excess session and its kill succeeded. |
| `Sessions.OldestSurvive` | backend/zeta/core/ssh_manager.py:279-305 | When kills succeed, exactly the oldest max_login sessions survive, and no other process is touched. |
| `Sessions.KillsReported` | backend/zeta/core/ssh_manager.py:301-305 | The reported number is the number of processes gone; when kills succeed it is how far the account was above its cap. |
| `Sessions.NoThrash` | backend/zeta/tasks.py:125-143 | A session that one poll spares is spared by every later poll, whatever arrives, departs or resists a kill in between. |
| `Sessions.SshHost.EnforceMaxLogin` | backend/zeta/core/ssh_manager.py:279-305 | Filter, early return, sort and counting kill loop leave exactly those processes, report the number that is gone, and touch no other account; a failed listing kills nobody. |
| `Sessions.SshHost.EnforceSshLogins` | backend/zeta/tasks.py:125-143 | The loop enforces every enabled account's cap and leaves disabled and unlisted accounts alone; skipping accounts that are not over the cap loses nothing. |
| `Registry.CleanedOk` | backend/zeta/api/inbounds.py:124-171 | Extra ports are accepted exactly when all are valid and none is 80 or 443; the cleaned list has the requested ports without repeats and without the primary. |
| `Registry.PanelPortsCover` | backend/zeta/api/inbounds.py:107-121 | The ports collected for the conflict check cover every other row's direct ports of that family. |
| `Registry.CreateOk` | backend/zeta/api/inbounds.py:222-321 | Creating an inbound, accepted or refused, keeps the table's invariant and the nginx include equal to the generated one. |
| `Registry.UpdateOk` | backend/zeta/api/inbounds.py:334-417 | The same for an update, also when the row moves into or out of the fronted group. |
| `Registry.ToggleOk` | backend/zeta/api/inbounds.py:420-434 | The same for a toggle. |
| `Registry.DeleteOk` | backend/zeta/api/inbounds.py:437-457 | The same for a delete. |
| `Registry.EveryRunOk` | backend/zeta/api/inbounds.py:222-457 | The table's invariant and the include's agreement hold after every run of requests. |
| `Registry.DirectPortsDisjoint` | backend/zeta/api/inbounds.py:107-171 | In every reachable table, direct ports of distinct rows of one family are disjoint, extras have no repeats, no primary and no 80 or 443, and the loopback port is 20000 + id exactly for fronted rows. |
| `Registry.InboundApi.ValidatePorts` | backend/zeta/api/inbounds.py:124-171 | The loop that builds the cleaned list and the two conflict checks after it give the validation result. |
| `Registry.InboundApi.CreateInbound` | backend/zeta/api/inbounds.py:222-321 | A create that goes through adds one row at the end with the request's columns, its cleaned extra ports and, without a port, the protocol's usual one; open rules and include follow. A refused one changes nothing. |
| `Registry.InboundApi.UpdateInbound` | backend/zeta/api/inbounds.py:334-417 | An update that goes through writes in its row what the request names (switch, address, port, transport, security, settings, paths, extra ports), keeps the rest and every other row; dropped ports are closed, new ones opened. A refused one changes nothing. |
| `Registry.InboundApi.DeleteInbound` | backend/zeta/api/inbounds.py:437-457 | Exactly that row goes and every direct port of it is closed; if the core rejects the result, nothing changes. |
| `Registry.InboundApi.ToggleInbound` | backend/zeta/api/inbounds.py:420-434 | Exactly that row's switch flips, no rule changes, and the include follows for fronted rows; if the core rejects the result, nothing changes. |
| `Registry.StepWritten` | backend/zeta/api/inbounds.py:222-457 | Each step of a run, told by the columns: which one row it adds, rewrites, flips or drops, that no other row moves, and when nothing moves. |
| `Registry.CleanedInOrder` | backend/zeta/api/inbounds.py:124-171 | Kept extra ports stay in the order of their first mention. |
| `Acceptance.CreateAcceptedIff` | backend/zeta/api/inbounds.py:222-321 | A create goes through if and only if the core takes the result, the tag is well formed and new, the protocol is its core's, and the ports and the path it asks for are well formed and had by no other inbound of the family and no other service. |
| `Acceptance.UpdateAcceptedIff` | backend/zeta/api/inbounds.py:334-417 | The same for an update, against the other rows, with the sockets the row has now exempt from the check against other services. |
| `Acceptance.StripTrims` | backend/zeta/api/inbounds.py:74-81 | Stripping a path drops the white space on both sides and nothing else. |
| `Nginx.Generate` | backend/zeta/core/nginx.py:51-71 | The loop appends one location per routed row, in row order. |
| `Nginx.GeneratedMembers` | backend/zeta/core/nginx.py:51-71 | A location is in the include if and only if some routed row has that path and port. |
| `Firewall.Allow` | backend/zeta/core/firewall.py:35-41 | The loop over protocols opens exactly the port's rules and closes none. |
| `Firewall.Revoke` | backend/zeta/core/firewall.py:44-50 | The loop over protocols closes exactly the port's rules and opens none. |
| `Routing.AcceptedRow` | backend/zeta/schemas.py:85-98 | Rows the API accepts meet the provisos of the tag and port-key lemmas. |
| `Routing.BindingsUnique` | backend/zeta/core/protocols.py:209-228 | Two rows of a reachable table never want the same path or the same port of one family. |
| `Routing.RoutesInjective` | backend/zeta/core/nginx.py:51-71 | No two locations of the include have the same path, and no two lead to the same port. |
| `Routing.RoutesExact` | backend/zeta/core/nginx.py:51-71 | A path leads to a port if and only if an enabled fronted row has that path and that loopback port. |
| `Routing.RoutesByColumns` | backend/zeta/core/nginx.py:51-71 | After any run of requests, a path leads to a port if and only if a row that is switched on has a ws, httpupgrade or xhttp transport on port 80 or 443 with that path, and the port is 20000 and the row's id. |
| `Routing.RouteTarget` | backend/zeta/core/xray.py:230-272 | A fronted Xray row renders its first listener on 127.0.0.1 with security "none", while its extra ports keep the public security. |
| `Routing.RoutingAgreesIff` | backend/zeta/core/nginx.py:51-71 | Each location of the include leads to exactly one rendered listener on that port, on 127.0.0.1 with security "none", owned by the row with that path, if and only if no enabled fronted row is on sing-box and no direct port equals a rendered loopback port. |
| `Routing.ListenersShareNoPort` | backend/zeta/core/xray.py:230-272 | If no direct port equals a rendered fronted row's loopback port, all rendered xray listeners have different ports. |
| `Routing.SharedPortWithoutClearance` | backend/zeta/core/xray.py:257-272 | Otherwise two rendered listeners do share a port. |
| `Collisions.OwnExtraPort` | backend/zeta/core/xray.py:257-272 | One accepted request: VLESS over WebSocket on port 80, first id, with 20001 as an extra port. |
| `Collisions.QuicBehindNginx` | backend/zeta/schemas.py:85-98 | One accepted request: hysteria2 on port 443 with network "ws" gets a location. |
| `Routing.ApiPortFree` | backend/zeta/core/xray.py:279-286 | The API listener's port is free if no enabled xray row binds it. |
| `Routing.DeleteExactIff` | backend/zeta/api/inbounds.py:446-456 | Deleting a row leaves the open rules exact if and only if no row across the UDP divide (shadowsocks or socks against hysteria2 or tuic) binds one of its direct ports. |
| `Routing.CreateExact` | backend/zeta/api/inbounds.py:311-320 | Creating a row keeps the open rules exact. |
| `Routing.UpdateExactIff` | backend/zeta/api/inbounds.py:410-416 | Updating a row leaves the open rules exact if and only if the update is refused or no row across that divide binds one of the direct ports it drops. |
| `Routing.FirewallExactIff` | backend/zeta/api/inbounds.py:222-457 | The open rules are exactly those the stored rows' direct ports need after every step of a run if and only if no delete and no update of the run drops a port whose UDP rule another row needs. |
| `Routing.FirewallExact` | backend/zeta/api/inbounds.py:222-457 | So they are over any run in which no shadowsocks or socks port is also used by hysteria2 or tuic. |
| `Routing.OpenByColumns` | backend/zeta/core/firewall.py:24-41 | Exact rules in words: a port is open for TCP if and only if a row of a TCP protocol binds it, for UDP if and only if a hysteria2, tuic, shadowsocks or socks row does. |
| `Collisions.DeleteClosesTooMuch` | backend/zeta/api/inbounds.py:446-456 | From two accepted requests, deleting the shadowsocks row closes a rule that hysteria2 needs. |
| `Collisions.UpdateClosesTooMuch` | backend/zeta/api/inbounds.py:410-416 | From the same table, moving the shadowsocks row to another port closes it too. |
| `AccessLogs.AccessLog.PollConcurrentIps` | backend/zeta/core/access_log.py:71-118 | The three passes over the nested table give the polled table and the returned counts. |
| `AccessLogs.AccessLog.PruneAndCount` | backend/zeta/core/access_log.py:107-117 | Dropping stale IPs and empty clients and counting the rest, email by email, gives the pruned table and its counts. |
| `AccessLogs.AccessLog.RefreshActive` | backend/zeta/core/access_log.py:101-105 | Byte activity moves the last-seen stamp of an active client's known IPs and nothing else. |
| `AccessLogs.StampAfterPoll` | backend/zeta/core/access_log.py:94-112 | One poll, seen at one client and IP: accepted, refreshed, kept or forgotten, independently of all others. |
| `AccessLogs.TableFaithful` | backend/zeta/core/access_log.py:71-118 | After any run, a stored entry carries the time of the log's last accept, and a missing one means that the last accept is older than what is kept. |
| `AccessLogs.CountsExact` | backend/zeta/core/access_log.py:71-118 | With the enforcement window inside the online window, every returned count is the number of distinct IPs the full log accepted in the enforcement window. |
| `AccessLogs.ExceedsIffTooManyIps` | backend/zeta/tasks.py:253-254 | The poller takes a client for over its cap if and only if the full log shows more distinct IPs in the enforcement window than limit_ip. |
| `AccessLogs.ActivityNeverCounts` | backend/zeta/core/access_log.py:101-105 | Two runs that differ only in which clients moved bytes return the same counts at every poll. |
| `AccessLogs.ExactIffWindowsNest` | backend/zeta/config.py:125-140 | The counts are exact for all runs if and only if the enforcement window is no longer than the online window. |
| `AccessLogs.StreamStaysOnline` | backend/zeta/core/access_log.py:121-145 | An IP accepted once stays on the badge as long as its client moves bytes at every poll and polls are no further apart than the online window. |
| `AccessLogs.OnBadgeIff` | backend/zeta/core/access_log.py:121-145 | Over any run, the badge shows an IP of a client if and only if the log accepted it once, no poll since found it silent for longer than the online window, and it is not silent for longer now. |
| `Ledgers.SingboxStats.QueryStats` | backend/zeta/core/singbox.py:251-340 | The scan and the pruning loop give the deltas per listener and the counters of the connections still listed; an unreachable API changes nothing. |
| `Ledgers.Ledger.BillInbounds` | backend/zeta/tasks.py:66-77 | Each stored inbound's columns grow by the deltas of exactly its own listeners. |
| `Ledgers.Ledger.BillSoleClients` | backend/zeta/tasks.py:79-94 | Each client's columns grow by the deltas of the sing-box inbounds whose only enabled client it is, and by nothing else. |
| `Ledgers.ShareAdd` | backend/zeta/tasks.py:119-122 | A delta at a listener adds to the share of exactly the row its tag folds back to. |
| `Ledgers.ScanConserves` | backend/zeta/core/singbox.py:282-322 | Within one snapshot, the deltas found so far are what the connections' counters grew by. |
| `Ledgers.ScanBillsRise` | backend/zeta/core/singbox.py:282-322 | A query bills what the listed connections' counters rose by since they were last seen; a counter that fell bills nothing. |
| `Ledgers.DeltasAddUp` | backend/zeta/core/singbox.py:251-340 | Over any run with failed polls and panel restarts, counters that never fall and ids that never return, the deltas add up to the last observed counters, past connections included, plus what was already billed for the connections listed again after a restart. |
| `Ledgers.DeltasAddUpIff` | backend/zeta/core/singbox.py:251-340 | So the deltas equal the counters if and only if nothing is billed again. |
| `Ledgers.NothingRebilled` | backend/zeta/core/singbox.py:29 | Without a restart nothing is. |
| `Ledgers.InboundConserved` | backend/zeta/tasks.py:44-77 | The total billed to an inbound is the sum of the last observed counters of all its connections over all its listener tags plus what restarts bill again, and equals the counters if and only if that is zero, as it is without restarts. |
| `Ledgers.SoleClientConserved` | backend/zeta/tasks.py:79-94 | A client that is its inbound's only enabled one at every poll is charged the same amount, under the same if-and-only-if. |
| `Ledgers.ForgottenQuery` | backend/zeta/core/singbox.py:29 | The first answered poll after a restart bills what the counters grew by plus everything already billed for the connections it lists. |
| `Ledgers.RestartBillsTwice` | backend/zeta/core/singbox.py:29 | A run of two polls around a restart bills one idle connection twice. |
| `Limiters.WsProxy.Take` | proxies/ws-proxy.py:173-224 | From an exact state, a handler run on to its next await lets a connection in exactly below the cap and an address on exactly below its share, moves no other handler, and gives an exact state again: counters equal to live handlers and within the caps. |
| `Limiters.EveryRunOk` | proxies/ws-proxy.py:173-224 | For every interleaving and every failure, total is the number of live handlers and within the cap, each address's count is the number of handlers charged to it and within its cap, and no entry is zero. |
| `Limiters.RejectedIffFull` | proxies/ws-proxy.py:43-67 | In every reachable state a connection is turned away if and only if the caps are really used up by live handlers. |
| `Limiters.DrainedIsEmpty` | proxies/ws-proxy.py:223-224 | When every handler has ended, the limiter is back to its initial state. |
| `Limiters.ClampNeverBites` | proxies/ws-proxy.py:69-77 | The clamp in release never changes a value: it equals plain subtraction in every reachable state. |
| `LoginGuards.LoginGuard.Check` | backend/zeta/auth.py:102-108 | Denied exactly while locked, with the remaining whole seconds; every check counts as activity. |
| `LoginGuards.LoginGuard.SweepStale` | backend/zeta/auth.py:120-137 | A bucket stays, unchanged, if and only if it is locked or was active within the sweep age. |
| `LoginGuards.LoginGuard.Login` | backend/zeta/api/auth.py:37-66 | Check and record in the handler's order make one attempt of the guard's step function. |
| `LoginGuards.WindowRemembered` | backend/zeta/auth.py:97-137 | Within one lockout-long window the bucket remembers all its failures or is locked to the end, wherever sweeps fall. |
| `LoginGuards.AtMostMaxFailures` | backend/zeta/auth.py:97-137 | A half-open window of lockout length with no success admits at most max_attempts failures of a key. |
| `LoginGuards.BoundedIff` | backend/zeta/auth.py:120-137 | That bound holds over all runs if and only if the lockout is at most the sweep age, or one failure already locks. |
| `LoginGuards.DeniedIffLocked` | backend/zeta/auth.py:102-137 | A key is denied if and only if the lockout of one of its locking failures is running: sweeps and denied attempts neither shorten nor prolong it. |
| `LoginGuards.LockIsEarned` | backend/zeta/auth.py:110-115 | Every lock is the last of max_attempts failures of the key with no success among them. |

## Left out

- Enforcer.PollConverges: generated configs validate; a rejected config makes `apply` return without effect, which the model contains and the theorem excludes.
- Sessions.ExcessIsNewest: sessions of one account start in different seconds; with ties the choice follows the listing order, which `Sessions.ExcessSize` covers.
- Ledgers.SoleClientConserved: per-user traffic of a multi-client QUIC inbound does not exist in the Clash API, and the per-user branch of `query_stats` that waits for it is left out with it.
- Ledgers.Ledger.BillInbounds: the xray side of the ledger, whose counters are reset by xray itself, is not modelled; its deltas are billed by the same loop.
- Transport, TLS and REALITY fields of a listener, except the security setting and the two blocks the loopback listener strips; the constant api, log, dns, routing and outbound blocks of a config.
- The verdict of the operating system's port check is an arbitrary set of busy ports, and the verdict of a core's config test an arbitrary flag.
- systemd, sudo, iptables, `/proc` and HTTP calls: their success is a flag or assumed, as said at the top.
- The text of the nginx include and the order of JSON keys: the include is its list of locations, and configs are compared as values.
- Parsing and tailing of the access log: a poll starts from the accepted (email, IP) pairs, and a line cut by a read is lost before that.
- The merge of sing-box's own IP snapshot into the counts, which is empty with the API as it is.
- Sorting of the online badge's addresses: the badge is a set.
- The rollback of a database session is an unchanged table; concurrent requests on the same row and races on the memos inside one statement are not modelled.
- White space and digits outside ASCII in paths and tags.
- Renewal of SSH accounts, which touches neither lock, cap nor memo, and the cron job that locks expired accounts outside the panel.
- How the proxy finds a client's address in the request headers: the address is arbitrary in the limiter's steps.
- Reading `Limiter` steps as atomic relies on asyncio switching handlers at awaits only, as the class's own comment says.
- The default settings block and generated keys of a new inbound (Shadowsocks-2022 keys, REALITY seeds) and the check of a Shadowsocks-2022 key's size: the request carries the settings after them, and one with a key of the wrong size is refused before it gets here.
- Generated credentials, expiry dates and subscription ids of a new client: the request carries them.
- Share links, tokens, passwords, TOTP, settings, dashboards, the bot's dialogue and payments.
