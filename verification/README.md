# Fleet control plane: a verified model

The control plane stores, for every machine, the list of modules it should run
(`Desired`). That list is a materialised view: it is computed from the tenant's
groups, the explicit members, the machine's labels and its override, bumped in
revision when it changes, and pushed to the machine over a stream that is woken
by a signal without payload. The agent runs what it has not yet run and
remembers what succeeded. This project models that pipeline and proves what it
is for, together with enrollment tokens, command history and the small codecs
around it.

## How it is laid out

| files | contents |
|---|---|
| `Api`, `Ordering`, `Text` | records, Go's string order and `sort.Slice`, string helpers |
| `Resolution`, `View`, `Tenancy` | `computeModules`, the view, every edit with the machines it recomputes |
| `Store`, `Bus`, `Resolver`, `Admin`, `Roster`, `CommandHandlers`, `AgentHandlers` | the classes and handlers, as methods over fields |
| `Protocol`, `WriterSide`, `StreamSide`, `Runs`, `Convergence` | the same pipeline as a state machine with any interleaving |
| `Refinement` | an uninterrupted edit of the state machine is what the handlers' contracts say |
| `AppliedKeys`, `Agent` | applied keys and `reconcile` |
| `Tokens`, `Commands`, `Payloads`, `FanOut`, `PayloadRuns` | counting, pruning, payloads, selector commands, runs of commands |
| `Blob`, `ProcStat`, `PodLogs`, `Escape`, `Processes` | codecs, parsers, ranking |

Code that changes things step by step is a method or a class here, proved
against a specification; what the code promises is then proved of that
specification. `sort.Slice` is not stable and maps are ranged over in any
order, so a result is specified as *some* possible outcome
(`Resolution.Possible`, `Commands.Pruned`, `Processes.Selected`), and the
properties hold for every one of them. In particular the view, the wake-ups and
convergence need no hypothesis on group names; distinct names are needed only
for a repeated recompute to be silent, and `View.StableIffUnambiguous` says
exactly when it is.

In the state machine a handler is a writer with a program counter: it edits the
store, reads groups and members, reads the machines one by one, and for each
machine saves and then publishes. Between any two of these steps agents send
heartbeats and reports, and streams subscribe, read, send, wait and end. The
ledger is a history variable: it holds what every revision of every machine
ever contained.

## What is assumed

- Admin edits and enrolment recomputes run one after another. The handlers read
  and rewrite a whole machine without a lock; `View.RacingRecomputes` shows what
  two of them at once would do.
- In the state machine `removeGroupMember` is given a machine of the group's
  tenant, or an unknown one. The handler does not check, and its method takes any
  ID: `Tenancy.LeaveKeepsViewIff` says exactly when the view survives, and
  `Tenancy.ForeignLeaveBreaksView` is a store where it does not.
- One agent's reconciles run one after another; in the code `retryLoop` and
  `streamOnce` take no common lock.
- New IDs are fresh, and store operations and flushes succeed.
- `Recompute` compares JSON texts; here module lists are compared as values. A
  list never computed is `null` and differs from the empty list, so the first
  recompute always raises the revision. A nil and an empty config are one value.
- `PayloadRuns.PayloadsStay` is about runs of freshly named commands to single
  groups and machines. Selector commands let targets share a command: then
  `PayloadRuns.CommandSafeIff` says for each command exactly when it is safe, and
  `PayloadRuns.SafeRunsKeepPayloads` is about every run of safe commands. On the
  intact stores of `Payloads.SharedPayloadIsLost`, `FanOut.SameSecondLosesPayload`
  and `FanOut.FanOutLosesPayload` the next command is not.
- CPU percentages are real numbers.

Where the code's comments say more than the code does, the model follows the
code. A command's time is said to be recovered from its name; a stamp before 1970
reads back as 0 (`Commands.NameCarriesTime`). The oldest commands are said to go
first; when a whole cap of other commands carries the same or a later second, the
one just created may go (`Commands.NewCommandKeptIff`).

## Model

| member | source | states |
|---|---|---|
| Resolution.ComputeModules | internal/server/groups.go:42-62 | the loops and sorts produce a list that the documented resolution allows for the machine's groups and override |
| Resolution.OverlayGroups | internal/server/groups.go:44-52 | groups are laid over each other in order, those the machine is not in are skipped |
| Resolution.Overlay | internal/server/groups.go:49-55 | specs laid over a map: the last of a name wins, other names stay |
| Resolution.ListValues | internal/server/groups.go:56-61 | the values of the map, each once, strictly ascending by name, whatever the range order |
| Resolution.LastSpecWins | internal/server/groups.go:49-55 | a name is present exactly if some spec has it, and its last spec is the one that counts |
| Resolution.PossibleEntries | internal/server/groups.go:20-28 | every possible list is strictly sorted; each entry is the override's last spec of the name, else the last one in a name-greatest matching group; nothing else is in it and nothing is missing |
| Resolution.DistinctNamesAreUnambiguous | internal/server/groups.go:26-28 | with distinct group names no two groups tie for a module |
| Resolution.UnambiguousIsUnique | internal/server/groups.go:26-28 | then the result is the same for every group order and map order |
| Resolution.UniqueIffUnambiguous | internal/server/groups.go:43 | the unstable sort can be noticed exactly when groups tied for the greatest name disagree |
| Store.FileStore.SaveTenant | internal/store/store.go:122-127 | one tenant is stored, nothing else changes |
| Store.FileStore.GetTenant | internal/store/store.go:129-137 | the tenant stored under the ID, or not found |
| Store.FileStore.SaveToken | internal/store/store.go:149-154 | one token is stored, nothing else changes |
| Store.FileStore.ConsumeToken | internal/store/store.go:156-180 | accepts and counts exactly as the token machine does, and returns the updated record |
| Store.FileStore.SaveMachine | internal/store/store.go:182-187 | the whole record replaces the stored one |
| Store.FileStore.GetMachine | internal/store/store.go:189-197 | the machine stored under the ID, or not found |
| Store.FileStore.ListMachines | internal/store/store.go:199-209 | every machine of the tenant once, in some order; all machines for the empty tenant |
| Store.FileStore.SaveModule | internal/store/store.go:211-218 | one artifact is stored under name@version |
| Store.FileStore.DeleteModule | internal/store/store.go:220-225 | that artifact is gone, others stay |
| Store.FileStore.GetModule | internal/store/store.go:227-235 | the artifact stored under name@version, or not found |
| Store.FileStore.SaveGroup | internal/store/store.go:249-254 | one group is stored, nothing else changes |
| Store.FileStore.GetGroup | internal/store/store.go:256-264 | the group stored under the ID, or not found |
| Store.FileStore.ListGroups | internal/store/store.go:266-276 | exactly the tenant's groups, each once, in some order |
| Store.FileStore.DeleteGroup | internal/store/store.go:278-284 | the group and its member list are gone |
| Store.FileStore.AddGroupMember | internal/store/store.go:286-294 | one explicit member more |
| Store.FileStore.RemoveGroupMember | internal/store/store.go:296-301 | one explicit member less |
| Store.FileStore.ListGroupMembers | internal/store/store.go:303-311 | exactly the explicit members, in some order |
| Store.FileStore.DeleteMachine | internal/store/store.go:313-321 | the machine is gone from the table and from every member list |
| Store.FileStore.TouchHeartbeat | internal/store/store.go:323-334 | only last_seen and inventory of an existing machine change |
| Store.FileStore.SetStatus | internal/store/store.go:336-347 | only last_seen and status of an existing machine change |
| View.RecomputeRestoresView | internal/server/groups.go:76-124 | recomputing every machine that may be out of the view brings the whole view back, if they are of the tenant named |
| View.RecomputeRevisions | internal/server/groups.go:109-122 | a revision rises by exactly one where the modules changed or were first computed, and nowhere else; only Desired changes |
| View.StableIffUnambiguous | internal/server/groups.go:109-115 | a machine in the view is left alone by every further recompute exactly if its groups are unambiguous |
| Resolver.SecondRecomputeIsQuiet | internal/server/groups.go:109-120 | with distinct group names an immediate second recompute changes nothing and signals no one |
| View.UntouchedGroups | internal/server/groups.go:240-283 | frame: a machine an edit does not recompute belongs to the same groups before and after |
| View.EditLeavesOnlyTargets | internal/server/groups.go:143-353 | an edit takes no machine out of the view except those about to be recomputed, and those are of the tenant named |
| View.ApplyKeepsWellFormed | internal/store/store.go:278-321 | explicit members stay live machines of the group's tenant under every edit |
| View.EditThenRecomputeKeepsView | internal/server/groups.go:143-353 | incremental equals from scratch: after every edit and the recompute of its targets alone, every machine's Desired is what computeModules gives on the current store |
| View.AgentWritesKeepCore | internal/store/store.go:323-347 | heartbeats and reports change no view input, no Desired, and bring no deleted machine back |
| View.SameCoreKeepsView | internal/store/store.go:39-42 | so they can neither break nor repair the view or the references |
| Tenancy.LeaveKeepsViewIff | internal/server/groups.go:268-283 | removing a member keeps the view on every outcome exactly if the machine is unknown, of the group's tenant, or every order of that tenant's matching groups decides all modules like some order of the machine's own |
| Tenancy.ForeignLeaveKeepsViewIffWinners | internal/server/groups.go:268-283 | for another tenant's machine and groups without ambiguous ties: exactly if, for every module outside the override, both tenants' name-greatest suppliers supply the same spec or there are none |
| Tenancy.ListsMatchIff | internal/server/groups.go:42-62 | one set of groups can only give lists another can give exactly if its orders are matched by the other's |
| Tenancy.ForeignLeaveBreaksView | internal/server/groups.go:268-283 | a store on which removing another tenant's machine breaks the view |
| Bus.InProc.Publish | internal/bus/bus.go:26-35 | every subscriber of the topic, and no other channel, has a pending signal; a full slot stays one signal |
| Bus.InProc.Subscribe | internal/bus/bus.go:37-47 | a new empty channel joins the topic |
| Bus.InProc.Cancel | internal/bus/bus.go:47-55 | the channel leaves its topic, other topics keep theirs |
| Bus.InProc.TryReceive | internal/server/server.go:215-218 | receiving succeeds exactly if a signal was pending, and empties the slot |
| Resolver.LocalMembersSuffice | internal/server/groups.go:81-92 | reading only the listed groups' members is enough |
| Resolver.SignalledOneMore | internal/server/groups.go:108-120 | the wake-ups of the whole loop are exactly those of the machines that changed |
| Resolver.Resolver.LoadMembers | internal/server/groups.go:81-92 | the member sets of the listed groups |
| Resolver.Resolver.LoadMachines | internal/server/groups.go:94-106 | the tenant's machines, or the named ones; fails exactly on an unknown ID |
| Resolver.Resolver.RecomputeOne | internal/server/groups.go:108-120 | one machine is refreshed from a possible list and its streams signalled exactly if it changed |
| Resolver.Resolver.RecomputeEach | internal/server/groups.go:108-123 | all listed machines are refreshed, all others untouched |
| Resolver.Resolver.Recompute | internal/server/groups.go:76-124 | the new store is a recompute of the old one for exactly the named machines, changed machines are signalled, and an unknown ID changes nothing |
| Admin.AdminServer.ValidateModules | internal/server/groups.go:127-139 | succeeds exactly if every referenced artifact exists |
| Admin.AdminServer.CreateGroup | internal/server/groups.go:143-175 | its status in every case; the group is added, the tenant recomputed and woken, the whole view holds |
| Admin.AdminServer.UpdateGroup | internal/server/groups.go:186-221 | only the given fields change; tenant recomputed and woken, the view holds; refused requests change nothing |
| Admin.AdminServer.DeleteGroup | internal/server/groups.go:223-238 | the group goes, its tenant is recomputed and woken, the view holds |
| Admin.AdminServer.AddGroupMember | internal/server/groups.go:240-266 | accepted exactly for a live machine of the group's tenant; recomputing that machine alone keeps the whole view |
| Admin.AdminServer.RemoveGroupMember | internal/server/groups.go:268-283 | for any machine ID: one member less and that machine recomputed for the group's tenant; references stay intact, and the view holds where leaving is safe |
| Admin.AdminServer.PutLabels | internal/server/groups.go:331-353 | labels are replaced; recomputing that machine alone keeps the whole view |
| Admin.AdminServer.PutDesired | internal/server/admin.go:164-192 | the override is replaced if its artifacts exist; the view holds |
| Admin.AdminServer.DeleteMachine | internal/server/admin.go:251-264 | the machine and its memberships go, exactly its streams are signalled, the view holds |
| Admin.AdminServer.CreateTenant | internal/server/admin.go:81-102 | a tenant with its match-all group; no machine leaves the view |
| Admin.AdminServer.CreateToken | internal/server/admin.go:113-142 | the stored token's expiry in all three cases of the lifetime; refused requests change nothing |
| Admin.EditKeepsGood | internal/server/groups.go:143-353 | what every handler's contract says keeps the invariant of the server |
| Roster.ListGroupMembers | internal/server/groups.go:285-328 | exactly one row for each member, with the reason |
| Roster.MachineGroups | internal/server/commands.go:105-156 | exactly one row for each group of the machine, with the reason, sorted by name |
| Roster.ViewsAgree | internal/server/commands.go:101-104 | both listings and computeModules agree on who belongs to a group, and explicit members do |
| Roster.ReasonsAgree | internal/server/commands.go:126-143 | the reasons the two listings give fit together |
| CommandHandlers.Check | internal/server/commands.go:188-217 | which requests are accepted |
| CommandHandlers.ForgetCommands | internal/server/commands.go:88-97 | exactly the payloads of the named commands are deleted |
| CommandHandlers.QueueForGroup | internal/server/commands.go:254-271 | append, prune, save, forget and recompute for a group; the view holds, changed machines are woken |
| CommandHandlers.QueueForMachine | internal/server/commands.go:272-289 | the same for one machine |
| CommandHandlers.QueueForSelector | internal/server/commands.go:291-324 | exactly the tenant's matching machines get the command and forget what they drop; without a match the payload is dropped again |
| CommandHandlers.FanOutLoop | internal/server/commands.go:297-311 | the loop's saves are one edit of exactly the matching machines, and exactly what each of them dropped is forgotten |
| CommandHandlers.CreateCommand | internal/server/commands.go:179-332 | the whole handler, for each target kind, with script, label, error cases, forgotten payloads and wake-ups |
| CommandHandlers.RanIntegrityIff | internal/server/commands.go:252-289 | after the recompute of a single-target command payloads are as complete as the prune left them |
| CommandHandlers.FannedIntegrityIff | internal/server/commands.go:291-324 | the same after a selector command |
| CommandHandlers.RanIsCommand | internal/server/commands.go:252-289 | the handler for a group or machine is one command of the payload runs and a recompute |
| CommandHandlers.FannedIsCommand | internal/server/commands.go:291-324 | so is the handler for a selector, with or without a match |
| CommandHandlers.RanKeepsIntegrity | internal/server/commands.go:252-289 | a single-target command with a fresh name keeps every held payload stored, stays within the cap, and is itself kept if fewer than the cap are as new |
| CommandHandlers.CancelCommand | internal/server/commands.go:381-427 | exactly the specs of that name leave the target; the view holds |
| AgentHandlers.AgentServer.HandleEnroll | internal/server/server.go:95-136 | one use per accepted request, even if the CSR is rejected; the new machine is at once in the view |
| AgentHandlers.AgentServer.HandleHeartbeat | internal/server/server.go:138-156 | only agent-written fields change; a deleted machine and a bad body are refused |
| AgentHandlers.AgentServer.HandleStatus | internal/server/server.go:243-259 | the same for status reports |
| AgentHandlers.StreamHandler.constructor | internal/server/server.go:183-212 | subscribes first, sends the current state, or ends for an unknown machine; all other signals and subscriptions stay |
| AgentHandlers.StreamHandler.Turn | internal/server/server.go:212-227 | a signal is consumed before the read; afterwards the stream is in step or ended, and all other signals and subscriptions are as before |
| AgentHandlers.StreamHandler.Send | internal/server/server.go:195-206 | sends the machine's state as stored now, fails exactly for an unknown machine |
| AgentHandlers.EditKeepsSync | internal/server/groups.go:116-120 | any handler's contract implies that a stream in step stays in step or has a signal |
| Tokens.TokenTable.SaveToken | internal/store/turso.go:264-277 | a zero limit is stored as one; a used key is refused |
| Tokens.TokenTable.ConsumeToken | internal/store/turso.go:281-297 | one conditional update of one row |
| Tokens.Conservation | internal/store/store.go:156-180 | over any call sequence uses grow by exactly the successes, which never pass max(1, MaxUses) less what was recorded; Used marks exhaustion |
| Tokens.ExactSuccesses | internal/server/server.go:101-106 | before expiry the successes are exactly the attempts up to what the limit leaves; a negative limit never refuses |
| Tokens.AgreeIffOffBoundary | internal/store/turso.go:281-286 | the two stores decide one call alike exactly off the expiry instant (or once exhausted) |
| Tokens.SameDecisionsIff | internal/store/turso.go:281-297 | they answer a whole call sequence alike exactly if every call, in the state it meets, is for an unknown or used-up token or off that instant; the states then still correspond |
| Tokens.SameDecisions | internal/store/turso.go:281-297 | so calls at no expiry instant are always answered alike |
| Tokens.SavedCorrespond | internal/store/turso.go:86 | saving in both stores keeps them corresponding, for legacy used records exactly after the migration |
| Commands.NameCarriesTime | internal/server/commands.go:158-173 | the time put into a name is read back, exactly from 1970 on |
| Commands.PruneCommands | internal/server/commands.go:57-84 | the loops give a pruning of the specs from a newest-first order |
| Commands.KeptIsTheRest | internal/server/commands.go:78-83 | only commands are dropped; what is kept is exactly the rest, in order |
| Commands.CapIsMet | internal/server/commands.go:64-69 | at most the cap stays, exactly the smaller of cap and count when names are distinct |
| Commands.OldestGoFirst | internal/server/commands.go:70-72 | no kept command is older than a dropped one |
| Commands.PruneIsIdempotent | internal/server/commands.go:57-84 | pruning twice is pruning once |
| Commands.CanDropIff | internal/server/commands.go:70-77 | a command may be dropped exactly if more than the cap are at least as new |
| Commands.CanKeepIff | internal/server/commands.go:70-83 | a command may stay exactly if it and its namesakes fit under the cap with the strictly newer ones |
| Commands.NewCommandKeptIff | internal/server/commands.go:252-289 | a new command is kept on every outcome exactly if fewer than the cap of the others are at least as new |
| Payloads.AddSafeIff | internal/server/commands.go:252-289 | on every outcome of the sort a single-target command leaves every held payload stored, exactly if no other target holds a command that this one may drop |
| Payloads.SharedPayloadIsLost | internal/server/commands.go:86-97 | an intact store on which the next command to one machine takes the payload another still holds |
| Payloads.FreshIsSafe | internal/server/commands.go:240-289 | while no two targets share a command, a freshly named one is always safe |
| FanOut.FanOutSafeIff | internal/server/commands.go:291-324 | on every outcome of the sorts a selector command leaves every held payload stored, exactly if nothing one matching machine may drop can still be held by another target |
| FanOut.FullHistoryIsUnsafe | internal/server/commands.go:297-311 | a matching machine full of commands at least as new may drop the new one and delete the payload another matching machine keeps |
| FanOut.FullHistoryLoses | internal/server/commands.go:297-311 | if one matching machine cannot keep the new command and another cannot drop it, every outcome loses its payload |
| FanOut.SameSecondLosesPayload | internal/server/commands.go:297-311 | an intact store, two commands of one second and an outcome of the second that deletes a held payload |
| FanOut.FanOutLosesPayload | internal/server/commands.go:297-311 | an intact store and a selector command, given by a clock that went back, every outcome of which does |
| PayloadRuns.CommandSafeIff | internal/server/commands.go:179-332 | for every command, to a group, a machine or a selector, known or matching or not: all outcomes leave every held payload stored exactly if it is safe when given |
| PayloadRuns.SafeRunsKeepPayloads | internal/server/commands.go:179-332 | over any run whose commands are safe when given, with anything else in between, every held command has its payload, shared or not |
| PayloadRuns.PayloadsStay | internal/server/commands.go:252-289 | over any run of freshly named group and machine commands and everything else but selector commands, no command comes to be shared and every held one has its payload |
| PayloadRuns.EditReleases | internal/server/groups.go:143-353 | enrolments, deletions, member, label and group edits bring no command and take no payload |
| PayloadRuns.WritesRelease | internal/server/commands.go:234-250 | nor do heartbeats, reports, uploads and commands to unknown targets |
| PayloadRuns.CancelReleases | internal/server/commands.go:381-427 | nor do cancels |
| AppliedKeys.ComputeAppliedKey | internal/agent/modules.go:136-148 | the key is a function of the spec, whatever the map order |
| AppliedKeys.AppliedKeyReadsBack | internal/agent/modules.go:136-148 | a spec is read back from its key exactly if its name has no `@`, its version and values no pipe and its config keys no `=` |
| AppliedKeys.KeyIsUnsharedIff | internal/agent/modules.go:136-148 | a spec has its key to itself exactly if neither name nor version has an `@`, it has no config, and no `=` follows a pipe in its version |
| AppliedKeys.AppliedKeyInjective | internal/agent/modules.go:136-148 | on such specs keys are equal exactly if the specs are |
| AppliedKeys.AtInNameCollides | internal/agent/modules.go:142 | every name with `@` shares its key with another spec |
| AppliedKeys.PipeInVersionCollides | internal/agent/modules.go:142-146 | a version can swallow a pair |
| AppliedKeys.EqualsInKeyCollides | internal/agent/modules.go:144-146 | a key with `=` can be split elsewhere |
| AppliedKeys.PipeInValueCollides | internal/agent/modules.go:144-146 | a value can swallow the next pair |
| Agent.HostAgent.Reconcile | internal/agent/modules.go:27-55 | both loops: new applied map, reported statuses and executed positions |
| Agent.HostAgent.OnEvent | internal/agent/agent.go:331-345 | an event is remembered and reconciled |
| Agent.HostAgent.OnRetry | internal/agent/agent.go:253-269 | a tick reconciles the last state again, or does nothing |
| Agent.ReconcileDomain | internal/agent/modules.go:46-54 | afterwards the applied map is about exactly the desired keys; one status per module |
| Agent.ReconcileModule | internal/agent/modules.go:33-45 | for any keys, shared or not: a module runs exactly if its key is not applied and no earlier module of that key succeeds; its report, in order, and what is remembered |
| Agent.KeyRunsIff | internal/agent/modules.go:33-45 | a key is executed exactly if it is desired and not yet applied, so failures run again on every reconcile |
| Agent.KeysDiffer | internal/agent/modules.go:136-148 | readable modules of different names have different keys |
| Agent.SettledModules | internal/agent/modules.go:46-54 | a settled applied map, read back, is exactly the desired modules, each once, if and only if each can be read back |
| Agent.SucceededNeverRunsAgain | internal/agent/modules.go:36-39 | over any run of reconciles a key that has succeeded and stays desired is never executed again |
| Agent.SuccessSettles | internal/agent/modules.go:27-55 | if all runs succeed, every desired key and no other is applied |
| Agent.SettledRunsNothing | internal/agent/modules.go:36-39 | then further reconciles run nothing and change nothing |
| WriterSide.WriteKeeps | internal/server/groups.go:76-124 | at every point of a handler, every machine it is not yet to recompute is in the view |
| WriterSide.AgentWriteKeepsWriter | internal/server/groups.go:94-119 | also with heartbeats and reports between a recompute's read and its save |
| StreamSide.StepKeepsInv | internal/server/server.go:192-227 | every step of any interleaving keeps the protocol's invariant |
| StreamSide.AnnounceKeepsSide | internal/bus/bus.go:26-35 | publishing hands the duty to wake over to the pending signals |
| Runs.NoLostWakeup | internal/server/server.go:192-227 | in every reachable state a live stream has last sent the current state, or is about to read it, or has a signal, or the writer is about to publish |
| Runs.RestIsUpToDate | internal/server/server.go:192-227 | at rest every open stream is of a live machine and has sent what computeModules gives now |
| Runs.ReferencesStayIntact | internal/store/store.go:278-321 | in every reachable state, also during an edit, explicit members are live machines of the group's tenant |
| Runs.IdleMeansInView | internal/server/groups.go:76-124 | between edits the whole view holds, in every run |
| Runs.StepRevision | internal/server/groups.go:116 | every step leaves a Desired alone or raises its revision by one with new modules |
| Runs.RevisionsIdentifyContent | internal/server/groups.go:109-122 | two states of a machine seen anywhere, at any time, with one revision are equal |
| Runs.RevisionsNeverDecrease | internal/server/groups.go:116 | a revision never goes back behind one that was seen |
| Runs.StreamRevisionsAscend | internal/server/server.go:195-206 | revisions on one stream never go down, and equal ones carry equal modules |
| Runs.AgentsCannotInterfere | internal/store/store.go:39-42 | no step but the writer's changes Desired, override, labels, groups or members, or revives a machine |
| Refinement.StepStaysOnTheWay | internal/server/groups.go:76-124 | each step of an uninterrupted writer keeps it on the way from the edit to its recompute |
| Refinement.EditRefinesContract | internal/server/groups.go:76-124 | an uninterrupted edit of the state machine ends in the store the handlers' contracts describe |
| Convergence.ProgressDecreases | internal/server/server.go:183-227 | every step that is bound to happen after the last edit lowers the measure |
| Convergence.AgentWritesKeepMeasure | internal/store/store.go:323-347 | heartbeats and reports do not set it back |
| Convergence.DrainIsBounded | internal/agent/agent.go:331-345 | so only boundedly many such steps can follow |
| Convergence.DrainExists | internal/agent/agent.go:253-269 | from any reachable state the pipeline can be run to its end |
| Convergence.DrainedIsConverged | internal/agent/modules.go:27-59 | and there every live machine's agent has taken the state computeModules gives, and its applied keys are exactly that state's |
| Convergence.DrainedRunsModules | internal/agent/modules.go:27-59 | in modules: what the applied map speaks of is exactly what computeModules gives, if and only if each can be read back from its key |
| Convergence.ConvergedStaysQuiet | internal/agent/modules.go:36-39 | a converged agent runs nothing more |
| Blob.BlobRoundTrip | internal/store/turso.go:216-228 | every byte sequence comes back from the padded form and from the unpadded form |
| Blob.EncodedLength | internal/store/turso.go:147-148 | the padded form fills groups of four letters |
| Blob.BlobReadsIff | internal/store/turso.go:222-228 | blob decodes a text exactly if, trailing padding aside, it has only letters and line breaks and no lone last letter, to as many bytes as its letters hold; otherwise it gives nothing |
| ProcStat.StatReadsBack | internal/agent/procsample.go:153-174 | the command name, whatever it contains, utime+stime and rss are recovered from the kernel's line |
| PodLogs.PodLogNamesIn | internal/agent/kubernetes.go:189-209 | the loop over the entries |
| PodLogs.LastEntryWins | internal/agent/kubernetes.go:195-207 | a uid is found exactly if some directory names it; the last such entry counts |
| PodLogs.DirReadsBack | internal/agent/kubernetes.go:183-209 | namespace, name and uid come back when only the name may hold underscores |
| PodLogs.ListingReadsBack | internal/agent/kubernetes.go:183-209 | a listing of the pods' directories gives exactly the pods |
| Escape.EscIsOnePass | internal/server/metrics.go:146-150 | three successive replacements are one pass |
| Escape.EscReadsBack | internal/server/metrics.go:146-150 | an escaped value between quotes reads back as itself, whatever follows |
| Escape.EscInjective | internal/server/metrics.go:146-150 | different values stay different |
| Processes.SelectProcesses | internal/agent/procsample.go:114-151 | sorting, taking and filtering give a selection |
| Processes.ServicesAreKept | internal/agent/procsample.go:139-143 | nothing is invented and every service process is reported |
| Processes.OmittedAreDominated | internal/agent/procsample.go:105-113 | an omitted process has at least n kept ones as busy and at least n kept ones as large |
| Processes.OutputIsSorted | internal/agent/procsample.go:125-131 | busiest first, ties by memory |
| Processes.SizeIsBounded | internal/agent/procsample.go:118-124 | with distinct PIDs nothing is reported twice and at most 2n plus the services are |

## Left out

- TLS, certificates, signing and renewal: a machine is its ID, and signing is given.
- HTTP, SSE framing, JSON text, the agent's 4 MB event limit, file flushes: a request body is a value or does not decode.
- Slices and maps shared between the store and its readers: `append` and the in-place filter of cancelCommand work on values here.
- Interleaved admin edits, and interleaved reconciles of one agent: assumed away as said above.
- In `Protocol` the groups and their members are read in one step; nothing but the writer changes them.
- In `Bus` a channel is a number and its slot a set of such numbers; the mutex is not modelled.
- Duplicate machine IDs in one call of Recompute: no handler passes them.
- Freshness of last_seen, inventory and status: a recompute saves a whole record and may write older values back.
- Overflow of token counts and revisions.
- removeModuleDir, unpacking and running payloads: a run's outcome is a parameter.
- Specs with a command's name brought in by putDesired, createGroup or updateGroup, in `PayloadRuns`.
- listCommands, uploadModule, listings without computation, dashboard, alerts, metrics text, installers.
- The rest of the Hrana store: SQL text and the pipeline client.
- The live registry and live stream, reconnect backoff and timeouts.
- processReport, inventory and cgroup scanning: host I/O.
