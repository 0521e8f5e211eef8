# Verified model of a deploy agent: tunnel, deploy queue and the small loops around them

The agent runs deployments one at a time per project, keeps waiting ones in FIFO queues that survive a
crash, and exposes services through a tunnel: a server listens on ports, a client behind a firewall
serves them, and a new client process can take the ports over from an old one without closing them.
This project states what those parts promise and proves it with Dafny 4.11
(`dafny verify dfyconfig.toml`).

## How it is laid out

**The tunnel.** `Messages.dfy` holds the listener as a value and what Config, Takeover, cleanup and one
routed message do to all listeners. `TunnelSystem.dfy` is the step system: sessions joined to the
server by one FIFO queue per direction; per accepted connection a handler, a read and a write task on
the server and a connect, a read and a write task on the client. A step is one lock section, one
channel operation or one socket operation of one task, so a read task may outlive its handler, bindings
may change between any two sends, and several connections and sessions interleave freely. A run is a list of
steps with the states it passes through from the empty start (`Passes`); `Reachable` states are those
some run passes through.
`TunnelInvariant.dfy` proves the invariant for one connection, one port and one session at a time;
`TunnelSafety.dfy` draws the promises from it; `TunnelProtocol.dfy` says step by step exactly what adds
and removes entries, registrations and signals, and what is sent where; `TunnelExclusive.dfy` adds what
holds when client ids are used exclusively; `TunnelRuns.dfy` exhibits the runs in which a stronger promise would fail.
`PortListeners.dfy` and `TunnelSessions.dfy` are the same operations as the objects of the source,
updated in place and proved against those functions. The methods `ConfigStep`, `TakeoverStep`,
`CleanUpSteps`, `DropSteps` and `ClientStep` call them and prove that objects and queues end in the state the step
system says.

**Deployments.** `TaskStore.dfy`, `QueuePersistence.dfy` and `Agent.dfy` are the store, the persisted list
with its file, and the agent's sequential operations, again as objects. `DeploySystem.dfy` is the
concurrent system with a crash possible after every step, in particular inside a save, between the
temporary file and the rename. `DeployAccount.dfy` says where every unfinished deployment is and bounds
the queues. `QueueOrder.dfy` and `QueueRestarts.dfy` follow the waiting order through restarts.
`DeployCoarse.dfy` has the large steps (a trigger; finish, unregister and take the next; crash and
recover) and proves each of them to be a run of small ones; `DeployExclusion.dfy` and
`DeployRestart.dfy` say exactly when mutual exclusion and no stranded work hold over them.
`DeployRuns.dfy` has the runs of small steps with the states they pass through, every interleaving and
crash point included; the runs above, in which queueing and saving are one step, are among them.
Over these `DeployOverlap.dfy` treats mutual exclusion and `DeployStranding.dfy` stranded work, each in the
same way: exactly which steps break it, the guard under which no run does, and a continuation that breaks
it from wherever the guard fails. `DeployRaces.dfy` has concrete runs for each condition.

**Independent parts.** `EndpointCache.dfy` and `EndpointRuns.dfy` (service router over mesh client),
`HealthWait.dfy`, `PrefetchTable.dfy` and `PortMappings.dfy`.

## What turned out not to hold

- *The upward stream can lose a chunk and go on.* Data from a client is routed to the ports bound to its
  client id at that moment. If another id takes the port and the old id comes back, a chunk in between
  is dropped and later ones are delivered (`TunnelRuns.UpStreamHole`). Downwards this cannot happen. The
  exact condition, over runs, is `TunnelSafety.HoleExactly`: the stream has a hole if and only if one
  chunk of the active connection was handled while its port was not bound to the session's client, and a
  later one while it was. With exclusively used ids there is no hole (`TunnelExclusive.ExclusiveStreams`).
  Exclusively means that distinct ids map disjoint ports, and that no session is unbound while a
  connection of another open session of the same id is active on a port bound to that id; a finished
  takeover may clean up its old session. Disjoint ports alone are not enough
  (`TunnelRuns.UnbindTearsHole`).
- *Pending is not always a subset of active* (`TunnelRuns.PendingNotActive`). The steps that end it at a
  port are exactly the first of a handler's two registrations and a Close from the bound client for a
  connection still pending (`TunnelSafety.PendingBreaksExactly`); with exclusive ids only the former is left.
- *Closing the old session undoes a takeover*, because cleanup is keyed by client id
  (`TunnelRuns.OldCloseUndoesTakeover`). Which steps change a binding, and hence how long one lasts, is
  stated both ways by `TunnelSafety.BoundFrame` and `TunnelSafety.BindingLasts`.
- *Two deployments of one project can run at once*, even without a restart. The running check and the
  registration are apart, so two triggers can both pass the check
  (`DeployRaces.CheckThenRegisterRace`). And the context unregisters when a task finishes while the
  executor unregisters again later, so a trigger between the two loses its registration to the second call
  (`DeployRaces.UnregisterRace`). In small steps a project is doubled exactly by handing a task of a
  project with a worker to another one (`DeployOverlap.StepDoublesExactly`). No run doubles one as long as
  no running check finds a project unregistered that has a worker or another trigger past the check, and
  recovery registers no record of a project with a worker (`DeployOverlap.GuardExcludes`); after any step
  from a reachable state that breaks this, two workers can come to deploy one project
  (`DeployOverlap.GuardIsNeeded`).
- *Waiting work can be left with nobody to run it, without a restart too.* The running check and the
  queueing are apart: a trigger finds a task registered, the worker then cleans up, finds the queue empty
  and leaves, and only then the trigger queues its item (`DeployRaces.CheckThenEnqueueRace`). In small
  steps work is stranded exactly by queueing an item of a project that has no worker and no trigger about
  to start one, or by ending recovery with such an item queued (`DeployStranding.StepStrandsExactly`). It
  stays stranded until a further trigger of the project makes its running check, the whole queue expires
  or the agent crashes (`DeployStranding.StepRescuesExactly`). No run strands work of a project as long as
  its last worker does not leave while a trigger stands between its running check and its queueing, and
  recovery does not end with an unserved item (`DeployStranding.GuardServes`); after any step from a
  reachable state that breaks this, work can come to be stranded (`DeployStranding.ServiceIsNeeded`).
- *A restart that does not know a project* leaves its records on disk, and a later one that knows it can
  start two of them (`DeployRaces.SkippedThenDoubled`). A restart doubles a project exactly when it knows
  one with two running records on disk (`DeployRestart.RestartDoublesExactly`), and that is the only way
  over the large steps (`DeployRestart.ExclusionExactly`).
- *A restart can strand work.* Expiry does not touch the persisted list, so an expired item comes back
  after a restart, and recovery starts no worker for a queued record (`DeployRaces.ExpiryStrandsWork`).
  `DeployRestart.RestartStrandsExactly` says which restarts do when nothing interleaves with recovery, and
  over the large steps, where no trigger overlaps a worker's end, that is the only way
  (`DeployRestart.NoStrandedWork`).

## Model

| member | source | states |
|---|---|---|
| TunnelSafety.DownStreamIntegrity | src/state/port_listener_manager.rs:318-346 | in every run, over every rebind and takeover, the bytes handed to the local service are a prefix of the bytes read from the remote peer |
| TunnelSafety.DownStreamComplete | src/services/tunnel/client.rs:603-648 | with the port still bound to the connection's session, its queue drained and the write task caught up, the local service has every byte read |
| TunnelSafety.UpStreamOrder | src/state/port_listener_manager.rs:145-153 | towards the remote peer chunks are never reordered, repeated or altered in any run, and there is no hole exactly when none was accepted after a skipped one |
| TunnelSafety.UpStreamIntegrity | src/state/port_listener_manager.rs:355-362 | without a hole the remote peer receives a prefix of what the local service sent |
| TunnelSafety.UpStreamComplete | src/services/tunnel/client.rs:609-648 | drained, caught up, still active and never skipped means everything read has arrived |
| TunnelSafety.HoleExactly | src/state/port_listener_manager.rs:507-534 | over every run the stream to the remote peer is out of order if and only if some chunk of the active connection was handled while the port was not bound to the session's client and a later one while it was, the write task alive |
| TunnelExclusive.ExclusiveKeeps | src/services/tunnel/server.rs:193-216 | in every run with ids used exclusively no chunk is ever skipped, an active connection's port stays with its session's id while that session is open, and Connected stays ahead of Close on the queue |
| TunnelExclusive.ExclusiveStreams | src/state/port_listener_manager.rs:265-374 | with ids used exclusively, finished takeovers included, both streams of every connection are intact |
| TunnelExclusive.ExclusivePending | src/state/port_listener_manager.rs:265-281 | with ids used exclusively a pending connection is active, save for a handler between its two registrations |
| TunnelInvariant.ReachableInv | src/state/port_listener_manager.rs:265-374 | the invariant over bindings, entries, queues, handlers and both flows of every connection holds in every reachable state |
| TunnelSafety.NoEarlyData | src/services/tunnel/client.rs:592-606 | a session that takes Data of a connection either registered that connection earlier in the run or is not the one its Connect was sent to |
| TunnelSafety.RegisteredEarlier | src/services/tunnel/client.rs:592-606 | a connection counts as registered only after its connect task succeeded in the run |
| TunnelSafety.NoLeakedEntries | src/state/port_listener_manager.rs:377-386 | pending and active entries of a port are always ids of handlers of that port still in flight |
| TunnelSafety.QuietMeansEmpty | src/state/port_listener_manager.rs:265-374 | once all handlers of a port have returned both of its maps are empty |
| TunnelSafety.TakeoverExitSafety | src/services/tunnel/client.rs:473-485 | a client leaves by TakeoverComplete only if the run contains the switch with that takeover id that took the session's own client id over from its table entry and bound every requested port having a listener to the new session |
| TunnelSafety.ToldAfterSwitch | src/services/tunnel/server.rs:105-191 | TakeoverComplete is on a session's queue only after the switch that replaced that session's table entry |
| TunnelSafety.TakeoverReply | src/services/tunnel/server.rs:105-191 | a Takeover from an unregistered session gets exactly one reply, TakeoverFailed exactly when ports are requested and none has a listener |
| TunnelSafety.AgreementHolds | src/services/tunnel/server.rs:259-265 | a bound client id is in the client table or some session still owes its unbinding |
| TunnelSafety.BindingTableAgreement | src/state/tunnel_state.rs:66-87 | every bound port uses the channel of a session that declared the bound id, and between cleanups that id is in the table |
| TunnelSafety.BoundFrame | src/state/port_listener_manager.rs:471-492 | in every reachable state a step changes who a port is bound to if and only if it is a Config or Takeover of an unregistered session mapping the port, or the cleanup of a session with the bound id |
| TunnelSafety.BindingLasts | src/state/port_listener_manager.rs:471-492 | a port keeps its binding throughout a stretch of a run if and only if no step of it is one of those |
| TunnelSafety.PendingBreaksExactly | src/state/port_listener_manager.rs:129-161 | in a reachable state where every pending connection of a port is active, a step ends that if and only if it is the first of a handler's two registrations, or the Close of a pending connection from the bound client |
| TunnelProtocol.EntriesExactly | src/state/port_listener_manager.rs:126-163 | a step adds an entry to a port's two maps or removes it if and only if it is one of the listed ones: the handler's registrations and drops, a routed Connected, ConnectFailed or Close of that connection, a clearing takeover |
| TunnelProtocol.ConnectFailedForgets | src/state/port_listener_manager.rs:139-147 | in a reachable state, handling ConnectFailed from the bound client leaves no entry of that connection at any port, and every other entry and binding as it was |
| TunnelProtocol.RegistryExactly | src/services/tunnel/client.rs:592-606 | a step registers a connection at a client or removes it if and only if it is its connect task, its read task's end, a served Close, the exit by a takeover or the end of the loop |
| TunnelProtocol.ForwardsExactly | src/state/port_listener_manager.rs:294-312 | a handler that stops waiting forwards if and only if the client's Connected had been routed to its port while it was pending there; otherwise it cleans up |
| TunnelProtocol.LeavesLast | src/state/port_listener_manager.rs:366-374 | in every run a handler that forwarded cleans up only after its read task or its write task has ended |
| TunnelProtocol.DiesDrained | src/state/port_listener_manager.rs:355-364 | in a run without a write error the server's write task ends only with everything written and its entry removed |
| TunnelProtocol.ConnectSent | src/state/port_listener_manager.rs:281-292 | the Connect goes to the end of the queue of the session the port is bound to and nowhere else, and the handler waits exactly when that channel can be sent to |
| TunnelProtocol.ChunkSent | src/state/port_listener_manager.rs:318-337 | a chunk goes to that queue and nowhere else, and the read task ends exactly when nobody can be sent to |
| TunnelProtocol.CloseSent | src/state/port_listener_manager.rs:346-351 | a read task that has ended sends Close there |
| TunnelProtocol.TasksAnswer | src/services/tunnel/client.rs:592-674 | refusal, success, chunk and end of a connection are each sent once, through the connection's own session |
| TunnelProtocol.ConnectServed | src/services/tunnel/client.rs:573-683 | a client dials a port it maps and refuses any other with ConnectFailed |
| TunnelProtocol.ServesAfterReady | src/services/tunnel/client.rs:253-291 | in every run a session opened to take over serves nothing before TakeoverReady with its own id has reached it |
| TunnelProtocol.RemoteGets | src/state/port_listener_manager.rs:355-364 | in a reachable state a write towards the remote peer hands on exactly the next chunk, and a failing one the part that got through |
| TunnelProtocol.LocalGets | src/services/tunnel/client.rs:650-658 | the same towards the local service |
| TunnelProtocol.EndsAreTold | src/state/port_listener_manager.rs:346-351 | in every run a read task that is done, on the server or the client, has sent Close |
| TunnelProtocol.ServerPhases | src/services/tunnel/server.rs:259-265 | a session's client leaves the table only after its loop has halted, its ports are unbound only after that, each by its own step |
| TunnelRuns.UpStreamHole | src/state/port_listener_manager.rs:507-534 | a reachable state in which the remote peer received the second chunk and not the first |
| TunnelRuns.PendingNotActive | src/state/port_listener_manager.rs:129-161 | a reachable state with a waiting handler pending but not active |
| TunnelRuns.OldCloseUndoesTakeover | src/services/tunnel/server.rs:259-265 | a reachable state in which closing the old session has removed the new session's table entry and binding |
| TunnelRuns.UnbindTearsHole | src/services/tunnel/server.rs:259-265 | a run with disjoint ports whose upward stream has a hole, torn by unbinding another session of the same id |
| Messages.BindAllAt | src/state/port_listener_manager.rs:471-484 | Config binds exactly the mapped ports, creating missing listeners, and touches no connection |
| Messages.SwitchAllAt | src/state/port_listener_manager.rs:572-645 | takeover port by port, duplicates included: binding, and exactly when connections are cleared |
| Messages.SwitchContract | src/state/port_listener_manager.rs:572-645 | takeover binds exactly the mapped ports with a listener, leaves the others, and empties a port of the same id if and only if something was active or nothing was pending |
| Messages.ServedZero | src/state/port_listener_manager.rs:618-645 | the count of switched entries is 0 exactly when no mapped port has a listener |
| Messages.ServedCount | src/state/port_listener_manager.rs:572-645 | the count is of mapping entries whose port has a listener, so a port listed twice counts twice |
| Messages.UnbindAllAt | src/state/port_listener_manager.rs:487-492 | unbinding takes the binding of exactly the ports of that client and touches no connection |
| Messages.BroadcastAt | src/state/port_listener_manager.rs:507-534 | a routed message changes only ports bound to its client, and there only the entries of its connection |
| PortListeners.PortListener.BindClient | src/state/port_listener_manager.rs:69-91 | replaces the bound client and keeps every connection entry |
| PortListeners.PortListener.UnbindClient | src/state/port_listener_manager.rs:94-103 | unbinds only the named client and says whether it did |
| PortListeners.PortListener.HandleClientMessage | src/state/port_listener_manager.rs:126-163 | entry by entry what one message removes from the two maps, and what it gives the connection's handler |
| PortListeners.PortListener.CleanupConnection | src/state/port_listener_manager.rs:377-386 | the connection leaves both maps and no other entry does |
| PortListeners.PortListener.ClearAllConnections | src/state/port_listener_manager.rs:402-413 | empties both maps and keeps the binding |
| PortListeners.PortListenerManager.EnsureListener | src/state/port_listener_manager.rs:436-463 | returns the existing listener or a started new one, and fails only when neither is possible |
| PortListeners.PortListenerManager.BindPortsForClient | src/state/port_listener_manager.rs:471-484 | binds in order up to the first port that cannot be opened and leaves what was bound |
| PortListeners.PortListenerManager.UnbindClient | src/state/port_listener_manager.rs:487-492 | every port of the client is unbound, no other |
| PortListeners.PortListenerManager.HandleClientMessage | src/state/port_listener_manager.rs:507-534 | the message reaches exactly the ports bound to the client, whatever order they are visited in |
| PortListeners.PortListenerManager.SwitchClientBinding | src/state/port_listener_manager.rs:572-645 | the new bindings; the result is the number of mapping entries whose port has a listener, the error exactly when there is none for a non-empty list |
| TunnelSessions.TunnelServer.HandleConfig | src/services/tunnel/server.rs:62-103 | a session binds at most once; on success table and bindings move to it, on failure the client is removed and the ports bound so far stay bound |
| TunnelSessions.TunnelServer.HandleTakeover | src/services/tunnel/server.rs:105-191 | which messages go to which session, and the table and bindings afterwards |
| TunnelSessions.TunnelServer.CleanUp | src/services/tunnel/server.rs:259-265 | the session's client leaves the table and all its ports are unbound, whichever channel they use |
| TunnelSessions.TunnelClient.Receive | src/services/tunnel/client.rs:566-702 | message by message the phase, the registry and what is dialled, refused or delivered, in takeover mode or not |
| TunnelSessions.ConfigStep | src/services/tunnel/server.rs:62-103 | handling a Config leaves the server object in the state the step system's Config leads to, where every port can be opened |
| TunnelSessions.TakeoverStep | src/services/tunnel/server.rs:105-191 | handling a Takeover, with the messages it sends pushed on the queues in order, is the step system's Takeover |
| TunnelSessions.CleanUpSteps | src/services/tunnel/server.rs:259-265 | the cleanup of the object is the two cleanup steps of the step system, one after the other |
| TunnelSessions.DropSteps | src/state/port_listener_manager.rs:377-386 | cleaning up a connection in the listener object of its port is the handler's two drops in the step system, and leaves no entry of it |
| TunnelSessions.TakeoverIs | src/services/tunnel/server.rs:105-191 | the new table and bindings and the replies of a Takeover in the step system, case by case, the emptiness test on the switch as a condition on the mapped ports |
| TunnelSessions.ClientStep | src/services/tunnel/client.rs:566-702 | handling one message leaves the client object, and the connections and queues its act touches, in the state the step system's client step leads to |
| TaskStores.TaskStore.UpdateStatus | src/state/task_store.rs:89-104 | an active task gets that status and exit code, and a finish time exactly for success and failure; nothing else changes |
| TaskStores.TaskStore.Finish | src/state/task_store.rs:114-132 | an active task leaves the active map and heads the history with the status, exit code and time given, its id and project kept; the older entries follow, trimmed to the limit |
| TaskStores.TaskStore.AddToHistory | src/state/task_store.rs:135-143 | the trimming loop keeps the newest entries up to the limit |
| TaskStores.TaskStore.CleanupStale | src/state/task_store.rs:175-194 | finished active tasks and history entries at least the retention old go, everything else stays as it is |
| TaskStores.TaskStore.GetAny | src/state/task_store.rs:66-74 | the active task, else the first history entry of the id, else nothing exactly when there is none |
| TaskStores.HistoryIsWindow | src/state/task_store.rs:114-143 | over every run with monotone time the history is a prefix of the reversed log of finishes, no longer than the limit |
| TaskStores.FinishStands | src/state/task_store.rs:114-143 | where each finish stands in the log, and exactly when it is still in the history |
| TaskStores.IdsOnce | src/state/task_store.rs:52-74 | without id reuse a task is active or logged, not both, and logged once |
| TaskStores.FinishedIsFound | src/state/task_store.rs:66-74 | over every run a finished task is found with the status, exit code and time it was finished with and the project it was created for, exactly until the limit of later finishes or a retention cleanup has dropped it |
| TaskStores.ActiveIsCurrent | src/state/task_store.rs:66-104 | over every run an active task is found with the status and exit code it was last given |
| QueuePersistences.QueueFile.Save | src/services/queue_persistence.rs:119-144 | the file changes only when the rename is reached; a save cut short leaves it as it was |
| QueuePersistences.QueuePersistence.Load | src/services/queue_persistence.rs:228-237 | the memory image becomes what the file holds |
| QueuePersistences.QueuePersistence.AddTask | src/services/queue_persistence.rs:239-244 | the record joins the end of the list unless its id is there; after a successful save file and memory agree |
| QueuePersistences.QueuePersistence.RemoveTask | src/services/queue_persistence.rs:246-254 | exactly the records of the id go; nothing is written when there was none |
| QueuePersistences.QueuePersistence.UpdateTaskStatus | src/services/queue_persistence.rs:256-265 | the first record of the id is running since the time given and otherwise the same; all other records are unchanged |
| QueuePersistences.RemoveFromIds | src/services/queue_persistence.rs:168-176 | a removal takes out exactly that id |
| QueuePersistences.AddToIds | src/services/queue_persistence.rs:159-165 | an addition adds exactly that id |
| Agents.Agent.EnqueueDeploy | src/state/app_state.rs:321-326 | the item goes to the end of its project's queue; the position counts from 1 |
| Agents.Agent.DequeueDeploy | src/state/app_state.rs:329-332 | the oldest item of the project, if any |
| Agents.Agent.Trigger | src/api/deploy.rs:136-256 | refuses exactly when the project runs and ten items wait, else queues or runs; the task is entered as queued or running and the record saved before it returns |
| Agents.Agent.ExecuteSingle | src/services/deploy/mod.rs:50-152 | the task ends in the history with that outcome and time, its record is removed and its project unregistered |
| Agents.Agent.ProcessQueue | src/services/deploy/mod.rs:155-201 | with nobody enqueueing, terminates having run the whole queue in arrival order once each, the project idle and unregistered, those records gone, other queues unchanged; the file agrees with memory afterwards unless nothing ran |
| Agents.Agent.CleanupExpiredQueueItems | src/state/app_state.rs:354-380 | exactly the items that waited more than 600 seconds go and are reported; order kept, persisted list untouched |
| Agents.Agent.Recover | src/lib.rs:303-433 | queues are rebuilt from the queued records of known projects in list order, running records are registered and started, others skipped |
| Agents.WithoutIds | src/services/queue_persistence.rs:168-176 | after a drain exactly the records with drained ids are gone from the persisted list |
| Agents.EndAllAre | src/services/deploy/mod.rs:155-201 | a drain leaves its tasks at the front of the history, the last one first, each with its own outcome and time |
| Agents.QueuedInOne | src/lib.rs:399-416 | a queued record of the project becomes an item with its id, request and queueing time; any other record adds nothing |
| Agents.RegisterAllAt | src/lib.rs:374-392 | after recovery the last task started for a project is the registered one |
| Agents.EnteredAs | src/lib.rs:361-372 | after recovery the last record of an id in a known project has its task entry, running or queued as the record is |
| DeploySystem.RecordsKept | src/services/queue_persistence.rs:119-187 | in every reachable state each saved record of an unfinished deployment is on disk, and in memory while the agent is up |
| DeploySystem.NoLostDeploy | src/api/deploy.rs:136-254 | over every interleaving, crash point and restart an acknowledged deployment has ended or is in the file |
| DeployAccount.AccountKept | src/services/deploy/mod.rs:155-201 | while the agent is up every saved unfinished deployment is with its trigger, in a queue, with a worker, expired, skipped, or still to be recovered |
| DeployAccount.EveryDeployAccounted | src/lib.rs:329-424 | after recovery an acknowledged deployment has ended, waits, is worked on, expired, or belongs to an unknown project |
| DeployAccount.QueueBound | src/api/deploy.rs:137-163 | with at most k handlers between length check and enqueue a queue never exceeds MAX_QUEUE_SIZE - 1 + k without recovery |
| QueueRestarts.ReachableWaiting | src/services/queue_persistence.rs:159-187 | in every reachable state each queue, with what recovery has still to add, follows the persisted order in memory and on disk |
| QueueRestarts.QueueFollowsRecords | src/state/app_state.rs:321-332 | each queue is an ordered subsequence of its project's queued records on disk, hence of what a crash now would recover |
| QueueRestarts.EachTaskOnce | src/lib.rs:329-424 | a task is never in two places: two queues, two workers, twice in a queue, or there and still to recover |
| QueueRestarts.RecoveredOnce | src/lib.rs:361-424 | of different ids recovery starts or queues each record of a known project exactly once, by its kind |
| QueueOrder.FreshSubseq | src/state/app_state.rs:354-380 | expiry leaves a queue in order |
| QueueOrder.MarkedLikeRemoved | src/services/queue_persistence.rs:179-187 | for the waiting order, marking a record running is the same as removing it |
| DeployCoarse.CoarseIsFine | src/services/deploy/mod.rs:145-201 | each large step is a run of small steps from one quiet state to another |
| DeployRestart.MutualExclusion | src/services/deploy/mod.rs:145-200 | over all large steps, expiry and restarts included, as long as no restart knows a project with two running records on disk: each project executes at most one task, exactly the registered one, and the running records are those and the skipped ones |
| DeployRestart.ExclusionExactly | src/lib.rs:329-424 | a run of large steps keeps to one task a project throughout if and only if its restarts meet that condition |
| DeployRestart.RestartDoublesExactly | src/lib.rs:333-398 | from any state a restart runs two tasks of one project if and only if it knows a project with two running records on disk, and otherwise runs exactly what it registers |
| DeployRestart.NoStrandedWork | src/lib.rs:329-424 | over all large steps a non-empty queue has a registered worker throughout if and only if no restart finds a known project with queued records and no running one |
| DeployRestart.NoStrandedAcrossRestarts | src/lib.rs:361-424 | over large steps without expiry, and with restarts that know the recorded projects, waiting work has a registered worker and each queue is exactly its project's queued records |
| DeployRestart.RestartStrandsExactly | src/lib.rs:399-416 | from any state a restart with which nothing interleaves strands work if and only if some project it knows has queued records on disk and no running one |
| DeployRestart.RestartRebuilds | src/lib.rs:329-424 | after a restart the queue of each project is its queued records in list order if the project is known, and a project is registered exactly when it is known and has a running record, under the id of one |
| DeployRestart.RestartRestores | src/lib.rs:329-424 | a restart that knows every recorded project brings the registry, one worker for each registered task and the waiting records back exactly |
| DeployOverlap.StepDoublesExactly | src/api/deploy.rs:243-253 | from one worker a project, a small step gives some project two if and only if a trigger or recovery hands a task of a project with a worker to another one |
| DeployOverlap.GuardExcludes | src/api/deploy.rs:137-209 | through any interleaving, crash and restart each project has at most one worker while no running check misses a worker or another starting trigger of its project, and recovery registers no project with a worker |
| DeployOverlap.GuardIsNeeded | src/api/deploy.rs:137-209 | from every reachable state a step that fails that guard can be followed by steps to two workers deploying one project at the same time |
| DeployStranding.StepStrandsExactly | src/api/deploy.rs:137-162 | a small step strands a project's work if and only if it queues an item of the project while it has no worker and no trigger about to start one, or ends recovery with one queued |
| DeployStranding.StepRescuesExactly | src/services/deploy/mod.rs:155-163 | in a reachable state stranded work stops being so by a step if and only if a trigger of the project makes its running check, the whole queue expires, or the agent crashes |
| DeployStranding.RegisteredIsServed | src/services/deploy/mod.rs:145-201 | in every reachable state after recovery a registered project has a worker or a trigger about to start one: no registration is left behind |
| DeployStranding.GuardServes | src/api/deploy.rs:137-162 | through any interleaving, crash and restart a project never has stranded work while its last worker does not leave with a trigger between running check and queueing, and recovery does not end with an unserved item |
| DeployStranding.ServiceIsNeeded | src/services/deploy/mod.rs:155-163 | from every reachable state a step that fails that guard can be followed by steps to stranded work |
| DeployStranding.StrandedQuietly | src/services/deploy/mod.rs:145-201 | between large steps with one registered worker a project, stranded in the sense of the small steps is waiting with the project unregistered |
| DeployRuns.MediumReachable | src/api/deploy.rs:151-181 | what is reachable with queueing and saving in one step is reachable step by step |
| DeployRaces.UnregisterRace | src/services/deploy/context.rs:84-112 | a reachable state of the small steps with two deployments of one project running, the registration lost to the second unregistration |
| DeployRaces.CheckThenRegisterRace | src/api/deploy.rs:137-209 | a reachable state of the small steps with two deployments of one project running, both triggers past the check before either registered |
| DeployRaces.CheckThenEnqueueRace | src/services/deploy/mod.rs:155-163 | a reachable state of the small steps, without any restart, in which an acknowledged item waits and nobody is registered, working or on the way |
| DeployRaces.ExpiryStrandsWork | src/lib.rs:253-270 | a run whose restart leaves an expired item waiting without a worker |
| DeployRaces.SkippedThenDoubled | src/lib.rs:333-359 | a run in which a restart starts two tasks of one project |
| EndpointCaches.MeshClient.Resolve | src/services/mesh.rs:389-453 | the cached answer exactly while younger than 60 s, else the registry's, which is cached; failures are not |
| EndpointCaches.ServiceRouter.ResolveEndpoint | src/services/service_router.rs:191-318 | which source the tables call for, and the url, latency and health read off that table; for a tunnel the address of the remote port of the first mapping with the name; the mesh is asked only when nothing nearer has the service |
| EndpointCaches.ServiceRouter.GetEndpoint | src/services/service_router.rs:157-188 | the cached answer exactly while younger than 30 s, else a new resolution of that kind, which is cached |
| EndpointCaches.BestIsUnique | src/services/service_router.rs:39-48 | there is only one best endpoint |
| EndpointRuns.BestIsBest | src/services/service_router.rs:191-318 | the code's order of sources is the order of priority() |
| EndpointRuns.LookupMatches | src/services/service_router.rs:157-188 | what the router's method promises is exactly a lookup step of the runs |
| EndpointRuns.AnswerIsRecent | src/services/service_router.rs:157-320 | over all lookups, clears and changes every answer equals a resolution less than 30 s old, and a mesh answer was given by the registry less than 90 s ago |
| EndpointRuns.NewAfterExpiry | src/services/service_router.rs:157-188 | an answer at least 30 s old is replaced by the best endpoint of the moment |
| EndpointRuns.AnswerStays | src/services/service_router.rs:157-188 | for thirty seconds a resolution is answered again, whatever changes around the router, unless its cache is cleared |
| EndpointRuns.NewAfterClear | src/services/service_router.rs:157-188 | after the router's cache was cleared the next lookup of a service gives the best endpoint of the moment |
| EndpointRuns.AskMatches | src/services/mesh.rs:389-453 | what the mesh client's method promises is exactly the step that asks it |
| HealthWaits.WaitForContainerHealthy | src/services/deploy/docker_compose.rs:692-790 | ends with the verdict of the first deciding inspection, or a timeout when none came in time; sleeps and number of inspections |
| HealthWaits.LookDecides | src/services/deploy/docker_compose.rs:720-771 | what an inspection printing these status and health texts does to the wait: dead containers end it, else healthy and unhealthy do, else running for three seconds without a health check; nothing else ends it |
| HealthWaits.BareLookDecides | src/services/deploy/docker_compose.rs:720-771 | the same for an output without a health part |
| HealthWaits.FailureDecides | src/services/deploy/docker_compose.rs:772-781 | an inspection that cannot be run ends the wait, one that complains does so exactly when it says the container does not exist |
| HealthWaits.TimeDecides | src/services/deploy/docker_compose.rs:699-706 | no inspection is made after the time allowed, and a timeout comes only then |
| HealthWaits.WaitIsDetermined | src/services/deploy/docker_compose.rs:692-790 | that outcome and number of inspections are the only ones |
| HealthWaits.IntervalBounds | src/services/deploy/docker_compose.rs:42-46 | intervals never shrink, stay within 100 and 2000 ms, and are at the cap exactly from the ninth on |
| HealthWaits.FirstEight | src/services/deploy/docker_compose.rs:42-46 | the first eight sleeps total 4924 ms |
| HealthWaits.InTimeBound | src/services/deploy/docker_compose.rs:692-790 | a general bound on the inspections a wait can make |
| HealthWaits.BoundIsTight | src/services/deploy/docker_compose.rs:692-790 | from five seconds on that bound is exact: the sleeps between that many inspections fit into the time allowed, one more does not |
| HealthWaits.CanaryChecks | src/services/deploy/docker_compose.rs:42-46 | a 60 s wait makes at most 36 inspections |
| PrefetchTables.PrefetchTable.OldestCompleted | src/api/images.rs:298-303 | an entry completed or failed than which none such is older, or none exactly when all are pending or pulling |
| PrefetchTables.PrefetchTable.CleanupOldTasks | src/api/images.rs:286-311 | terminates; entries past the retention go; beyond that only finished ones go, oldest first and no more than needed; fewer than 100 are left or none is finished |
| PrefetchTables.CleanupKeeps | src/api/images.rs:286-311 | nothing an hour old is left and every unfinished younger entry is; a younger one that is gone was finished, is no younger than any finished one left, and went only while a hundred were there |
| PrefetchTables.CleanupSpares | src/api/images.rs:286-311 | fewer than 100 young entries are all left, and no more go than needed |
| PrefetchTables.CleanupTwice | src/api/images.rs:286-311 | a second cleanup at the same moment removes nothing |
| PortMappings.ParseSum | src/domain/tunnel.rs:60-80 | parsing two texts joined by a comma is parsing each, so a malformed item never affects its neighbours |
| PortMappings.RoundTrip | src/domain/tunnel.rs:60-80 | a list survives writing and parsing if and only if no name or host holds a separator and no name starts with whitespace |
| PortMappings.ItemReads | src/domain/tunnel.rs:60-80 | an item is read as a mapping if and only if, whitespace around it aside, it is name, port, host and port of that mapping joined by colons; any other item is skipped |
| PortMappings.PortReads | src/domain/tunnel.rs:60-80 | a text is read as a port if and only if it is that number in decimal, perhaps after zeros and a plus sign |
| PortMappings.ParseOne | src/domain/tunnel.rs:60-80 | a text without a comma is one item |
| PortMappings.Stable | src/domain/tunnel.rs:60-80 | whatever was parsed survives writing and parsing |
| PortMappings.DecimalDigits | src/domain/tunnel.rs:60-80 | a written port reads back as itself |

## Left out

- Sockets, WebSocket framing, JSON and TCP: queues and byte sequences stand for them; a session end may lose any tail of a queue that was not yet on the wire.
- Channel capacities and backpressure: a full channel only delays a step, so the safety claims do not depend on them.
- Ping and Pong, HTTP proxying through the tunnel, reconnect delays and connection statistics.
- In the step system Config and Takeover are one step each, every listener starts, and a broadcast to a client's ports and the unbinding of all its ports are one step; a port that cannot be opened is modelled in `PortListeners` and `TunnelSessions` only.
- Identifiers of sessions, clients and connections are numbers compared for equality; connection ids are never reused, as the UUIDs of the source are not.
- Deployments themselves (Docker, git, scripts): a deployment ends with an arbitrary terminal status, at any time.
- A save in the concurrent systems succeeds unless a crash cuts it off, and the agent's sequential methods call the persistence with saves that succeed; failing saves are modelled in `QueuePersistences`.
- In the concurrent systems an id is triggered again only when nothing refers to it any more.
- The task store is not part of the concurrent systems: its own runs are treated in `TaskStores`.
- QueueRestarts.QueueFollowsRecords: queueing and saving the record are one step there; in between, the queue is one item ahead of the records.
- DeployRestart.NoStrandedWork: over large steps, in which no worker leaves between a trigger's check and its queueing; the small steps, where work is stranded without a restart, are the subject of `DeployStranding`.
- DeployRestart.NoStrandedAcrossRestarts: over large steps, as the line above.
- DeployRestart.RestartStrandsExactly: nothing interleaves with recovery; in small steps a recovered worker may leave before a queued record of its project is added, which `DeployStranding.StepStrandsExactly` covers.
- DeployRestart.MutualExclusion: over large steps, in which nothing happens between a check and a registration; the small steps are the subject of `DeployOverlap`.
- Task stages, log channels, heartbeats, notifications, cancellation and pending updates.
- The mesh client's HTTP request, heartbeats and zones: the registry is a partial map, and a lookup takes no time.
- The choice among several LAN peers or tunnel clients offering the same service: the model takes the one the table yields first.
- The text of the container's health log and of error messages; the clock is a parameter that does not run backwards.
- Database, SSH, system, container and LAN API handlers, authentication and environment loading: wrappers with few branches, which would add only easy members.
