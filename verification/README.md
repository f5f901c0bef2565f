# Nanogate, verified

Nanogate runs one agent container per tenant behind a gateway. Requests travel through Redis lists to the agents, events
come back over Redis streams to SSE subscribers and to a webhook dispatcher, a manager keeps the tenants' containers and
their configurations, and commands that need a human wait in an approval ledger. This project models these parts and proves
what they guarantee over every run, whatever fails and however the steps interleave.

`dafny verify dfyconfig.toml` checks all of it.

## How the model is laid out

* **Message pipeline.** `Messages`, `Streams` and `Redis` are the data; `AgentSide` (publishing gateway and serial agents)
  and `Dispatch` (consumer group and dispatcher workers) are state machines whose every Redis call, POST, stop and crash is
  a step of its own; `Pipeline` lets the two interleave freely. `Outcomes`, `CleanRuns` and `Pipeline` hold the theorems
  over all runs, `Orphans` those about entries left behind, `Served` those about runs in which nothing fails,
  `Subscriptions` and `Conversations` those about readers that disconnect and resume. `MessageBus`, `AgentServer`,
  `GatewayChat` and `WebhookDispatcher` are the objects and loops of the code, proved to take only the machines' steps.
* **Tenants.** `TenantConfig` is what the manager does to a configuration, `ConfigPaths` the same read off path by path.
  `Tenants` has the four stores (cache, Redis records, `config.json` files, containers) and one step per manager
  operation, and steps for containers that vanish, files that are lost and gateways that restart, with the same
  environment variables or others. `TenantRuns` and `TenantGuarantees` hold the invariant and the theorems,
  `TenantOperations` what each operation does and the idle clock; `TenantManager` has the manager and the registry as
  classes, with their loops.
* **Approvals.** `Approvals` is the ledger as a machine of tasks with context variables of their own, `ApprovalRuns` its
  theorems; `ApprovalTools` has the exec tool and the chat turn, `ApprovalRoutes` the two approve routes.
  `ShownApprovals` joins agents and ledgers: what a done event shows of approvals.
* **Session state.** `SessionState` and `SessionPersistence` model saving session files to Redis and restoring them;
  `Naming` the session names and Redis keys all parts share.

What the world decides (whether an XADD fails, how much Redis trims, how a POST is answered, whether Docker obliges, the
clock, fresh ids) is a parameter: of a step in the machines, of a method in the classes. Theorems hold for all values.
Some things exist as history only: the position of a request in the log of published requests (`uid`), the configuration
last asked for (`asked`), the environments gateways have had (`envs`), the numbers of chat turns, and the turns behind
results (`shown`).

## Where the code does not do what is said of it

* The dispatcher's documentation promises guaranteed delivery (`gateway/webhook_dispatcher.py:18-19`). It fails in a run of
  eight steps whose one fault is a crash (`Orphans.DeliveryIsNotGuaranteed`): only new entries are ever read, so an entry
  that is pending with no worker on it is never acknowledged and its callback never called again, whatever follows
  (`Orphans.OrphansAreNeverServed`, `Orphans.RequestsAreNeverServedAgain`). An entry gets there if and only if a step drops
  it: its worker's crash, a stop taking effect while the worker has it, or the worker's failed acknowledgement outside the
  retry loop's `try` (`Orphans.OrphanedExactlyByDrops`). `Served.EveryRequestIsServed` is the guarantee that does hold.
* The backoff bound of 2^(n-1) - 1 seconds is also reached when a stop is seen at the head of the last attempt
  (`WebhookDispatcher.BoundWithoutAllAttempts`); it is reached exactly when the first n - 1 attempts fail
  (`WebhookDispatcher.RetriesAreBounded`).
* Replacing ":" by "_" makes session state keys collide for ids with colons (`Naming.ColonsCollide`, for example "a:b:c" and
  "a:b_c" in `Naming.ColonsCollideExample`), never for ids without (`Naming.ColonFreeSessionsSeparate`).
* A host directory other than the tenant's own workspace is mounted only until the first resume
  (`TenantGuarantees.FirstResumeChangesMount`).
* A gateway restarted with another Redis URL or key does not always pass it on: what an earlier one injected into
  `gateway.env` stays. The two save paths of a configuration can then lead to different container environments;
  `TenantGuarantees.SavePathsAgree` says exactly when, from `TenantConfig.NewGatewayEnvironment`.
* The agent's approve route notices a wrong session only after the command has run
  (`ApprovalRoutes.ApproverMustNameTheSession` with `ApprovalRoutes.Approve`).
* A request raised in a resumed conversation is recorded under `api:direct` (`ApprovalRuns.ResumedRequestsFallBack`).
* A session without a file of its own can be saved with another session's state
  (`SessionState.AnothersFileIsSaved`, and in general `SessionState.OwnFileOrFirstMatch`).

## Model

| member | source | states |
|---|---|---|
| Naming.SessionNamesAgree | gateway/routes/chat.py:16-21 | Whatever a client typed, gateway, agent and approver arrive at one name: normalizing is idempotent, and the approver's version agrees with it on every non-blank input |
| Naming.SessionNames | gateway/routes/chat.py:16-21 | A session is named by what the client typed, trimmed; after "api:" if it has no colon; "api:direct" if it is blank |
| Naming.StripTakesOnlySpace | gateway/routes/chat.py:18 | Trimming removes white space at both ends, all of it, and nothing else |
| Naming.AsciiSpaces | gateway/routes/chat.py:18 | The white space of ASCII: tab to carriage return, the four separators, and the blank |
| Naming.KeysExactly | nanogate/bus.py:14-18 | The keys of queues, streams and saved states as they stand in Redis |
| Naming.QueuesAndStreamsInjective | nanogate/bus.py:31-49 | No two tenants share a queue and no two sessions a stream, whatever characters they use, and no session's stream is the global one |
| Naming.StateKeysInjective | nanogate/bus.py:106-110 | Two saved states share a key exactly when the tenants are equal and the sessions differ at most in colons where the other has underscores, an empty one counting as "default" |
| Naming.ColonFreeSessionsSeparate | nanogate/bus.py:109-110 | Two colon-free client ids share a name, a stream and a saved state exactly if they are equal once trimmed, a blank one counting as "direct"; otherwise they share none of the three |
| Naming.ColonsCollide | nanogate/bus.py:109-110 | A session id with two colons always has another session sharing its saved state |
| Messages.CallbackIsGiven | gateway/webhook_dispatcher.py:56-58 | The callback of a request is its non-empty `callbackUrl`, else its non-empty `callback_url`, else there is none |
| Messages.SessionIsGiven | agent/server.py:50 | The agent runs a request under its non-empty `session_id`, else its non-empty `sessionId`, else under `api:direct` |
| Subscriptions.SubscribeEvents | nanogate/bus.py:58-76 | The reader loop delivers exactly what its reads return, up to the first final event or the consumer's leaving |
| Subscriptions.StreamChat | gateway/routes/chat.py:74-95 | A client gone before event n has received exactly the first n events of its subscription |
| Subscriptions.DeliveryStops | nanogate/bus.py:58-76 | What a connection delivers is what its reads return, up to and including the first final event, or the first `want` entries, and never less |
| Subscriptions.ReadsAreContiguous | nanogate/bus.py:58-70 | However the stream grows and is trimmed between reads, a subscription reads one contiguous piece of the log if and only if nothing unread was trimmed |
| Subscriptions.ResumedReadIsContiguous | nanogate/bus.py:65-73 | Any number of connections, each resumed from the last received id, together deliver the stream from the first cursor on: no gap, no duplicate, no reordering |
| Subscriptions.EachConnectionGoesOn | nanogate/bus.py:65-76 | Each connection goes on exactly where those before it stopped, until a final event, the client leaving, or the end of what its last read finds |
| Subscriptions.CompleteConnectionsAreTurns | nanogate/bus.py:73-76 | If every connection lasts until its final event, the n-th connection delivers exactly the n-th turn |
| Subscriptions.AppendEndangersUnread | nanogate/bus.py:50-56 | An append can trim an unread entry if and only if it makes the unread backlog longer than MAXLEN |
| Subscriptions.RetentionBound | nanogate/bus.py:50-56 | Whatever arrives and however eagerly Redis trims, a reader at most MAXLEN entries behind has lost none of them, wherever its cursor was before |
| Subscriptions.KeepingUpRetains | nanogate/bus.py:50-70 | A reader whose cursor moves with its reads misses nothing if it is at most MAXLEN entries behind at each of them |
| Conversations.ConnectionsSeeChains | nanogate/bus.py:58-76 | Reads at any points of a run of the agents see one growing stream, as the theorems on subscriptions take for granted |
| Conversations.ClientsReadTurns | agent/server.py:60-101 | In a clean run every complete connection to a single-tenant session delivers one request's progress and then its one final event, in request order |
| Conversations.ClientsOfTheMachineReadTurns | agent/server.py:60-101 | The same for connections whose reads look at any points of the agents' run, as long as nothing unread was trimmed |
| Conversations.KeepingUpMissesNothing | nanogate/bus.py:50-76 | In any run of the agents, a client whose reads, over all its connections, find it at most 1000 entries behind misses nothing |
| Conversations.ClientsThatKeepUpReadTurns | agent/server.py:60-101 | So in a clean run the connections of such a client deliver one request each, in request order, whatever Redis trims |
| AgentSide.StepKeeps | agent/server.py:46-101 | The invariant of the agents: queues hold published requests newest first, each listener works on the oldest unfinished request, and both kinds of streams stay in order |
| Outcomes.GlobalStreamIsTruthful | agent/server.py:71-101 | Under any failures every entry of the global stream is the outcome of a published request's turn, under its session |
| Outcomes.GlobalStreamFollowsRequests | agent/server.py:71-101 | Under any failures the global stream follows, tenant by tenant, the order of publication, with at most one entry per request |
| Outcomes.SessionStreamOrder | agent/server.py:71-101 | On its session's stream a request has at most a done and then an error event, and no progress after either |
| Outcomes.MirrorAlways | nanogate/bus.py:43-56 | Every outcome on the global stream, or about to go there, is on its session's stream |
| CleanRuns.NoRequestIsLost | agent/server.py:46-101 | Without crashes and lost outcomes every published request is queued, in progress, dropped for its empty message, or reported |
| CleanRuns.OnePlaceOnly | agent/server.py:46-101 | In any run a request is in at most one of these places |
| CleanRuns.SessionReadsAsTurns | agent/server.py:60-101 | In a clean run a single-tenant session's stream is a sequence of turns in request order, each one request's progress closed by its one outcome, the last perhaps still open |
| Dispatch.StepKeeps | gateway/webhook_dispatcher.py:54-99 | The invariant of the consumer group: ids are delivered once and in order, pending and acknowledged sets are disjoint, POST counts agree with each worker's place in its retry loop |
| Pipeline.WebhooksAreTruthful | gateway/webhook_dispatcher.py:56-76 | Every POST goes to the callback of a really published request, under its normalized session, with the outcome its turn had |
| Pipeline.AtMostOneSuccess | gateway/webhook_dispatcher.py:70-93 | A request gets at most `max_retries` POSTs, and at most one answer with a code from 200 to 299 more than acknowledgements failed after one: one, if they succeed |
| Pipeline.GroupAccounting | nanogate/bus.py:86-104 | Every entry ever appended is in exactly one of undelivered, trimmed unread, pending and acknowledged; an acknowledged one had no callback, a POST for it was answered with a code from 200 to 299, or it used up its attempts |
| Pipeline.NoEntryReadTwice | nanogate/bus.py:93 | No entry is handed out twice, to the same worker or to two |
| Orphans.OrphanedExactlyByDrop | gateway/webhook_dispatcher.py:45-52 | A worker's step leaves an entry pending with nobody on it if and only if it is that entry's worker crashing, leaving it because stopped, or failing to acknowledge it outside the retry loop's `try` |
| Orphans.OrphanedExactlyByDrops | gateway/webhook_dispatcher.py:45-52 | After any run an entry is left behind if and only if a step of the run dropped it |
| Orphans.LeftBehindOnlyByFaults | gateway/webhook_dispatcher.py:45-99 | An entry read and not acknowledged is either still worked on by its reader or was dropped, by that very reader |
| Orphans.OrphansAreNeverServed | nanogate/bus.py:93 | Whatever follows, an entry left behind stays so: never acknowledged, its POSTs never more |
| Orphans.RequestsAreNeverServedAgain | nanogate/bus.py:93 | Once the entry reporting on a request is left behind, the request's callback is never called again |
| Orphans.DeliveryIsNotGuaranteed | gateway/webhook_dispatcher.py:18-19 | A run of eight steps with one crash after which a request's webhook is never sent in any continuation |
| Served.EveryRequestIsServed | gateway/webhook_dispatcher.py:13-20 | Without such faults, and with the dispatcher within the retention bound, at rest every request with a message has the outcome its turn really had acknowledged on the global stream, and its callback has answered 2xx exactly once or refused all attempts |
| MessageBus.RedisMessageBus.PublishRequest | nanogate/bus.py:23-33 | The tenant's queue, and no other, gains the request at its head: unchanged if it names a session, else with the new session id; its session id is returned |
| MessageBus.RedisMessageBus.PublishEvent | nanogate/bus.py:43-56 | The session's stream gains the event if the first XADD succeeds, the global stream a final event with its session if both do; which failure is raised |
| MessageBus.PublishedEventTrims | nanogate/bus.py:50-56 | Whatever Redis trims, a session's stream keeps its newest 1000 entries and the global one its newest 10000; and it may trim that far |
| MessageBus.RedisMessageBus.ConsumeGlobalEvent | nanogate/bus.py:86-100 | The first entry beyond the group's position becomes pending and the position moves to it |
| AgentServer.ListenOnce | agent/server.py:46-101 | One iteration pops the oldest request; without a message it leaves no trace, otherwise the streams gain exactly the progress that got through, in order, and then the outcome or, where an XADD of a done event failed, the error that replaces it; all of it as steps of the machine |
| AgentServer.Report | agent/server.py:79-101 | The outcome is published; a done event that raises halfway is followed by an error event, and an error event that raises by nothing |
| GatewayChat.QueuedPayloadMeaning | gateway/routes/chat.py:50-58 | The queued request carries the client's text, exactly its callback, and the session it was told under both names; so the agent answers it under that session |
| GatewayChat.Chat | gateway/routes/chat.py:42-65 | A blank message is refused and nothing is queued; any other is queued, once, for the tenant the client names, trimmed, or if it names none for the gateway's default, and for nobody else |
| GatewayChat.ChatAsync | gateway/routes/chat.py:67-72 | The same, refused without a callback |
| GatewayChat.WebhookReachesClient | gateway/webhook_dispatcher.py:56-76 | End to end: a POST made for a client's request goes to the callback it gave, under the session it was answered with |
| WebhookDispatcher.RetriesAreBounded | gateway/webhook_dispatcher.py:69-93 | POSTs are made until an attempt is stopped or ends with an acknowledged 2xx, n at most, with at most 2^(n-1) - 1 seconds of backoff for n >= 1, reached exactly when the first n - 1 attempts fail |
| WebhookDispatcher.WebhookDispatcher.TryOnce | gateway/webhook_dispatcher.py:70-91 | One attempt: stopped before its POST or not; served exactly if the answer has a code from 200 to 299 and can be acknowledged; failed otherwise; all of it as machine steps |
| WebhookDispatcher.WebhookDispatcher.Retry | gateway/webhook_dispatcher.py:69-99 | The retry loop takes only the machine's steps, POSTs and sleeps exactly as counted, and leaves the event acknowledged unless it was stopped before an attempt or the acknowledgement after the last failure fails |
| WebhookDispatcher.WebhookDispatcher.ProcessEvent | gateway/webhook_dispatcher.py:54-99 | An event without callback is acknowledged at once, any other goes through the loop |
| WebhookDispatcher.WebhookDispatcher.HandleNext | gateway/webhook_dispatcher.py:45-52 | One round of the main loop; a stopped worker leaves the event it has just read pending, with no POST |
| TenantConfig.NormalizingSettles | gateway/docker_manager.py:245-268 | Writing a written configuration again cannot fail, changes nothing and mounts the tenant's own workspace |
| TenantConfig.InjectingSettles | gateway/docker_manager.py:354-370 | Building the environment from an injected configuration cannot fail and gives the same environment and the same configuration |
| TenantConfig.InjectingAgain | gateway/docker_manager.py:354-370 | Under another gateway environment it cannot fail either, and what the first injection set stays: the result is that of one injection under the two environments in succession |
| TenantConfig.NewGatewayEnvironment | gateway/docker_manager.py:359-370 | Under a changed gateway environment, the Redis record and `config.json` lead to the same container environment if and only if nothing injected would now differ |
| ConfigPaths.FalseValues | gateway/docker_manager.py:258 | What counts as unset: null, false, 0, and empty texts, lists and objects, and nothing else |
| ConfigPaths.UnwritableExactly | gateway/docker_manager.py:245-261 | Editing raises exactly if the gateway section, the agents section or its defaults is no object, or a workspace is set that is no string |
| ConfigPaths.ForcedSettings | gateway/docker_manager.py:247-268 | After editing, `gateway.port` is 8765 and `agents.defaults.workspace` is "/root/.nanobot/workspace" |
| ConfigPaths.NothingElseForced | gateway/docker_manager.py:245-268 | Under every other path an edited configuration says what it said before |
| ConfigPaths.MountExactly | gateway/docker_manager.py:256-262 | A host directory is mounted exactly if a workspace is set that does not, trimmed, begin with "/root/"; otherwise the tenant's own |
| ConfigPaths.UnstartableExactly | gateway/docker_manager.py:354-369 | Building the environment raises exactly if the one given is true but no object, or if the key must be looked for in providers that are true but no objects |
| ConfigPaths.EnvironmentExactly | gateway/docker_manager.py:354-370 | Every variable of a container: its id; what the configuration gives; for the bus the gateway's URL or the default; for the key the tenant's own before the gateway's; nothing else |
| ConfigPaths.InjectedExactly | gateway/docker_manager.py:354-370 | The saved configuration has these variables under `gateway.env`, if it has one, and is otherwise unchanged under every path |
| TenantRuns.StepKeeps | gateway/docker_manager.py:174-440 | The tenants' invariant survives every operation, and vanishing containers, lost files and restarts of the gateway under any environment |
| TenantGuarantees.CacheAgrees | gateway/docker_manager.py:174-202 | After any run the cache holds exactly the tenants recorded as running, with the recorded container, port and directory, and a record runs exactly when it names a container |
| TenantGuarantees.HitAnswersLikeMiss | gateway/docker_manager.py:174-202 | A cache hit answers what the path through Redis and Docker would, if and only if the container still exists |
| TenantGuarantees.RecordedContainersLive | gateway/docker_manager.py:186-193 | While no container vanishes, every tenant recorded as running has a live container of its own |
| TenantGuarantees.OneContainerPerTenant | gateway/docker_manager.py:342-350 | No tenant ever has two containers, even when Docker refused to remove one on the way |
| TenantGuarantees.LastConfigureIsAsked | gateway/registry.py:36-38 | The configuration counted as asked for is the one of the last successful explicit provisioning |
| TenantGuarantees.ContainersRunWhatWasAsked | gateway/docker_manager.py:354-399 | In any run a live container has the environment of the configuration its tenant was last given, completed by a Redis URL and a key that gateways have had so far; record and `config.json` hold that configuration up to keys injected from those |
| TenantGuarantees.ResumeStartsWhatWasAsked | gateway/registry.py:44-51 | Resuming cannot be refused because of the saved configuration, whatever gateway environments it has seen; container and record come from `config.json` and the gateway's environment, `config.json` from what was asked for, with the tenant's own workspace |
| TenantGuarantees.ConfigSurvives | gateway/docker_manager.py:289-312 | After any stops, prunes, shutdowns, lost files, vanished containers and restarts of the gateway under whatever environments, a demand brings the tenant back with its last explicit configuration: `config.json` and record hold it up to injected environment keys, and the container's environment keeps every key it gave and adds at most the tenant's id, the Redis URL and the key |
| TenantGuarantees.ConfigSurvivesExactly | gateway/docker_manager.py:354-399 | While restarts keep the gateway's environment, the container's environment and the record are exactly those of the configuration, and only `config.json` may or may not have the injected keys |
| TenantGuarantees.SavePathsAgree | gateway/docker_manager.py:289-302 | Saved from `config.json` or from the Redis record, a configuration leads to the same mount, and to the same container environment and record if and only if nothing injected at the last start would now differ; always while the gateway's environment stays |
| TenantGuarantees.MountStays | gateway/docker_manager.py:256-266 | Once the tenant's own workspace is mounted, no later container mounts anything else until the tenant is configured anew |
| TenantGuarantees.FirstResumeChangesMount | gateway/docker_manager.py:256-266 | The first resume changes the directory mounted if and only if a host directory other than the tenant's own workspace was asked for |
| TenantGuarantees.PruneStopsExactlyIdle | gateway/docker_manager.py:218-235 | A prune tick stops exactly the tenants recorded as idle for over 1800 seconds, keeping their configurations, and leaves every other tenant's record, cache entry and container alone |
| TenantGuarantees.PruneRemovesOnlyIdle | gateway/docker_manager.py:233-235 | Every container a tick removes is the one an idle tenant's record names |
| TenantGuarantees.IdleClock | gateway/docker_manager.py:204-212 | No operation but `touch` moves the recorded activity of a container: looking a tenant up does not postpone its pruning |
| TenantGuarantees.ShutdownStopsEveryone | gateway/docker_manager.py:436-440 | After a shutdown nothing is cached or recorded as running, every configuration is saved, and only containers Docker refused to remove remain |
| TenantOperations.SavedExactly | gateway/docker_manager.py:289-302 | The configuration saved on stopping is the file's, unless it is missing or empty, else the recorded one |
| TenantOperations.StopExactly | gateway/docker_manager.py:272-316 | Stopping leaves a record without container, with port, directory and last activity as known in memory, else as recorded; nobody else and no file is touched |
| TenantOperations.StopRemovesExactly | gateway/docker_manager.py:313-325 | A container is removed exactly if a stopped tenant has it and Docker lets go of it |
| TenantOperations.ProvisionsExactly | gateway/docker_manager.py:327-434 | Exactly when provisioning starts a container, and exactly when it returns rather than raises |
| TenantOperations.StartExactly | gateway/docker_manager.py:371-418 | What a start leaves: cache, record, file and container, the idle clock set to the time of the start, and no other container of the tenant |
| TenantOperations.FailureExactly | gateway/docker_manager.py:327-352 | What a failed provisioning leaves: the tenant stopped, the file written if it got that far, the old containers gone if it got further |
| TenantOperations.ProvisionSparesOthers | gateway/docker_manager.py:327-418 | Provisioning touches no other tenant's record, cache entry, file or container |
| TenantOperations.LookupExactly | gateway/docker_manager.py:174-202 | A tenant is found exactly if cached or recorded with a live container; what is answered and cached; a record changes only if its container is gone |
| TenantOperations.TouchExactly | gateway/docker_manager.py:204-212 | Touching sets the clock of a cached tenant in memory and, if recorded as running, in Redis, and nothing else |
| TenantOperations.RestartExactly | gateway/docker_manager.py:115-147 | A new gateway process caches exactly the tenants whose recorded container lives, as recorded, and marks stopped exactly those whose container is gone |
| TenantOperations.PrunedExactlyWhenIdle | gateway/docker_manager.py:218-235 | In any run a tick stops a running container exactly if more than 1800 seconds have passed since it was started or its tenant last touched |
| TenantManager.EditConfig | gateway/docker_manager.py:245-268 | The step-by-step edit gives the normalized configuration and its mount, or raises exactly on configurations that cannot be edited |
| TenantManager.InjectEnv | gateway/docker_manager.py:354-370 | The step-by-step injection gives the container's environment and the configuration as Redis will hold it, or raises exactly on ill-shaped ones |
| TenantManager.DockerManager.StopTenant | gateway/docker_manager.py:272-325 | Stopping saves the configuration before the container goes, from whichever source has it, and touches no other tenant |
| TenantManager.DockerManager.ProvisionTenant | gateway/docker_manager.py:327-418 | What each stage of provisioning leaves behind when it is the last; a setup command that raises does so with the tenant running |
| TenantManager.DockerManager.GetTenant | gateway/docker_manager.py:174-202 | Hit and miss, with the correction of a record whose container is gone |
| TenantManager.DockerManager.PruneTick | gateway/docker_manager.py:218-235 | The two loops stop all idle tenants as if at once |
| TenantManager.DockerManager.ReloadRunning | gateway/docker_manager.py:115-147 | The startup loop caches every live running tenant and marks the others stopped |
| TenantManager.DockerManager.ShutdownAll | gateway/docker_manager.py:436-440 | The loop stops every cached tenant as if at once |
| TenantManager.AgentRegistry.ProvisionTenant | gateway/registry.py:36-38 | An explicit provisioning is the machine's step, and returns exactly when shape and luck allow |
| TenantManager.AgentRegistry.GetOrCreate | gateway/registry.py:44-51 | The running container is answered as it is; otherwise the tenant is resumed as the machine says |
| Approvals.StepKeeps | sample/tools/gateway_exec.py:74-168 | The ledger's invariant survives every step of every task |
| ApprovalRuns.IssuedIsPendingOrConsumed | sample/tools/gateway_exec.py:96-133 | Under any interleaving each request issued is pending, unchanged, or consumed once: never both, never neither |
| ApprovalRuns.ConsumedOnce | sample/tools/gateway_exec.py:131-133 | No two approvals, however they interleave, consume the same request |
| ApprovalRuns.RequestsAreForTheirCalls | sample/tools/gateway_exec.py:74-102 | Every request is for the command, in the directory, of the tool call that raised it |
| ApprovalRuns.UngatedCommandsStartAtOnce | sample/tools/gateway_exec.py:110-121 | Without approvals required, every command called starts at once, in the order of the calls, and nothing is ever asked |
| ApprovalRuns.CommandsStartOnlyOnceApproved | sample/tools/gateway_exec.py:124-168 | With approvals required, whatever starts was consumed from the ledger, is exactly the command, in the directory, of the tool call that asked for it, and starts once |
| ApprovalRuns.TurnsReportTheirOwnRequests | agent/routes/chat.py:49-85 | A done event names a request if and only if its own turn issued one, and then one of that very turn, recorded under its session; nothing leaks from earlier or parallel turns |
| ApprovalRuns.ResumedRequestsFallBack | sample/tools/gateway_exec.py:84 | A request raised in a resumed conversation is recorded under `api:direct` unless the call names a session |
| ApprovalTools.GatewayExecTool.Execute | sample/tools/gateway_exec.py:74-121 | A gated call is recorded with command, directory and session, shown in the task's context, and not run; any other starts its command and leaves ledger and context alone |
| ApprovalTools.GatewayExecTool.RunApproved | sample/tools/gateway_exec.py:124-168 | The request is taken out before anything else; its command starts unless it cannot; a second approval finds nothing |
| ApprovalTools.RunChat | agent/routes/chat.py:49-85 | A turn reports the request of its last gated call, or none, whatever the context held before; as steps of the ledger |
| ShownApprovals.DoneEventsShowTheirOwnApproval | agent/server.py:71-88 | With agents and ledgers run together, every done event on a stream shows an approval if and only if its request's own turn issued one, and then one of that turn, recorded under the request's session unless the call named another |
| ShownApprovals.ResultsAreOfTurns | agent/server.py:71-98 | Every recorded outcome of a request is what a turn of its tenant's listener ended or broke with |
| ShownApprovals.StepKeeps | agent/server.py:71-88 | Listener and ledger stay in step: the listener's task is in a turn of the request's session exactly while the agent runs it |
| ApprovalRoutes.Approve | agent/routes/approval.py:50-139 | The first tool that has the request pending consumes and runs it whatever the answer; no other tool is touched; without an owner nothing happens |
| ApprovalRoutes.ListPending | agent/routes/approval.py:24-48 | The list holds every pending request of every tool, each once |
| ApprovalRoutes.ApproverMustNameTheSession | agent/routes/approval.py:73-137 | The answer to an approval: refused, resumed or skipped, exactly when, and with which code, output, command, session and reply |
| ApprovalRoutes.ContactExactly | gateway/routes/approval.py:40-51 | What one POST does to the agents: it consumes the request of the agent it gets to and starts its command unless that cannot start |
| ApprovalRoutes.AcceptedExactly | gateway/routes/approval.py:43-47 | Exactly when a POST is answered with 200 |
| ApprovalRoutes.HuntFindsTheOwner | gateway/routes/approval.py:29-56 | With fresh ids the hunt changes the owner's agent alone, exactly if the POST reaches it, and succeeds exactly if a good answer gets back |
| ApprovalRoutes.HuntIsSafe | gateway/routes/approval.py:29-56 | Whatever is lost, at most one tenant's agent changes, and a success means that the owner consumed the request and started its command |
| ApprovalRoutes.InterleavedHuntsStartOnce | gateway/routes/approval.py:29-56 | However the POSTs of any number of hunts for one request interleave with each other, with new requests and with agents that end, its command starts at most once and at most one approval is answered with 200, one that started it |
| ApprovalRoutes.HuntIsItsPosts | gateway/routes/approval.py:40-51 | A hunt leaves the agents as its POSTs one after the other do, and finds somebody exactly if one of them is answered with 200 |
| ApprovalRoutes.HuntFor | gateway/routes/approval.py:40-51 | The loop is that hunt, and touches exactly the tenant that answered with 200 |
| ApprovalRoutes.GatewayApprove | gateway/routes/approval.py:17-56 | The route asks the named tenant if looking it up gives a port, and without a name every cached tenant with one: it answers that there are no targets exactly if there are none, succeeds with a tenant exactly if that one is asked, has the request and accepts, and changes no agent it does not ask |
| SessionState.FilesSurvive | agent/session_persistence.py:45-74 | Text that is not JSON comes back exactly, a JSON object without such a text with the same value |
| SessionState.LoadThenSave | agent/session_persistence.py:23-80 | Restoring a session and saving it leaves Redis as it was, if and only if its state has no text under "raw", or is the way a text without JSON is saved |
| SessionState.RestoredExactly | agent/session_persistence.py:65-77 | Which saved states can be restored, and as which text |
| SessionState.SafeFileExactly | agent/session_persistence.py:19-20 | A session's file is its name with colons and slashes replaced, so it stays in its directory whatever the name |
| SessionState.MatchesExactly | agent/session_persistence.py:40 | The search accepts exactly the names that contain the session's, with colons replaced, and end in ".json" or have no extension |
| SessionState.OthersUndisturbed | agent/session_persistence.py:23-80 | Saving or restoring one such session disturbs neither file nor saved state of another |
| SessionState.OwnFileOrFirstMatch | agent/session_persistence.py:30-53 | What is saved: the session's own file if it is there, else the first file of the search that matches, else, or if that match is a directory, nothing |
| SessionState.AnothersFileIsSaved | agent/session_persistence.py:37-44 | The search can take another session's file |
| SessionPersistence.SaveSessionState | agent/session_persistence.py:23-53 | Saving with its search loop sets the session's own state or nothing |
| SessionPersistence.LoadSessionState | agent/session_persistence.py:56-80 | Restoring writes the session's own file and says so, or writes nothing and says that |

## Left out

- Thread interleaving of the pruner with request handling: manager operations are atomic here, with one gateway process and working Redis and Docker. A lookup between the pop and the save of `stop_tenant` can in fact re-cache a container about to be removed.
- Gateways without Redis or without Docker, and a second gateway process on the same Redis.
- Aliasing of the configuration dictionary: the manager edits the caller's dictionary in place; the model passes the edited value on, which shows in what the Redis record holds but not in the caller's variable.
- `config.json` edited from inside the container; tenant ids that are not plain names or contain the state key prefix; a `config.json` that is not an object.
- Image building, free ports, tools and scripts mounts, what setup commands do and the health wait of provisioning: each is luck that may end it, or is absent.
- Links on the host that change between two starts of a tenant: a path resolves to the same directory each time.
- JSON text: payloads are maps of strings and configurations trees; session files go through an abstract parser and printer with parse after print the identity. Approval context in done events and the text shown for a required approval.
- Redis and HTTP beyond the outcomes named: a failed XADD is taken to have appended nothing, a queue read never fails, and stream ids are numbers.
- The agent before its loop exists, and session persistence within the listener iteration (it is modelled by itself).
- The agent's own HTTP chat with its direct callback, which bypasses the bus; the gateway's generic proxy; health routes; validation by the web framework.
- The language model, tool dispatch, subprocesses, token minting and output truncation: a turn is any sequence of progress and tool calls ending in a text or an exception, a command any exit, timeout or failure to start. Tools are taken to run in their turn's own task.
- RunChat: covers a turn whose calls are not interleaved with other tasks; `ApprovalRuns` covers all interleavings, and turns that raise, on the machine.
- AgentServer.ListenOnce: runs without other tenants' steps in between; `Pipeline` covers all interleavings on the machine.
- WebhookDispatcher.WebhookDispatcher.HandleNext: runs one worker without other workers' steps in between; `Pipeline` covers all interleavings on the machine.
- Loss of pending approvals when an agent process ends: they live in memory, and the ledger is that of one process.
