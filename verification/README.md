# YunXi: verified models of its stateful components

YunXi is an agent runtime. The files here model the parts of it whose guarantees come from whole
runs rather than from single branches, and prove those guarantees. `dafny verify dfyconfig.toml`
checks everything.

**Multi-agent coordinator** (`Coordinator`, `CoordinatorRuns`, `CoordinatorLedger`, `CoordinatorValidity`,
`CoordinatorStore`, `SavedFile`). The agent document is a value; spawning, turns, interrupts and the
restart recovery are its steps. `CoordinatorRuns` proves about every run from a new document that the
agents are a forest with parents first, that depth is distance and stays in the stored budget, that
grants are attenuated, and that a recursive interrupt seals its branch for ever. `CoordinatorLedger`
accounts for turns and events. `CoordinatorValidity` shows that the validation before a save accepts the result
of every operation that succeeded. `CoordinatorStore.Store` is the object that loads, changes and saves the
document through `SavedFile.Directory`, where a save may fail or the process may die between any two
file-system calls. `CoordinatorMeaning` says what each request does to the agents and events, and which check
refuses it, without the code that does it.

**Agent turn loop** (`SessionLog`, `ToolBroker`, `AgentTurn`, `AgentSpine`). The log is bounded and
projects to the conversation; the broker runs tools on the direct path or behind a decision; the agent
runs rounds, stops in the middle of a batch, and resumes at the same call. The model, the context and the
tools are arbitrary functions of turn, round and call, which loses nothing: a turn asks the model once a
round and runs a call at most once. Besides what a turn that succeeds has done, the contracts say when it
succeeds: with nothing failing around the agent and room in the log, only a spent budget ends a turn. Whatever a
turn comes to, its counters stay within the budget and no more tools ran in it than it was charged for, and what
it wrote to the log follows the protocol of a turn (`AgentTurn.NextPhase`), from its start to its one end.

**Cordis runtime** (`CordisRuntime`). Startup by passes to a dependency fixpoint, then explicit mounts,
toggles and shutdown, per call and over any sequence of calls. Plugins answer mounts and unmounts arbitrarily, and
what they do to the root scope is arbitrary too; the contracts count the questions they are asked.

**Scopes, effects, fibers** (`ScopeInterleaving`, `ScopeOrder`, `ScopeSweep`, `ScopeRest`, `ScopeTree`).
`ScopeInterleaving` runs any number of threads over one scope, one lock section at a time. The other four
are about callers that do not overlap: `ScopeOrder` says in which order a nested disposal runs its
disposers, `ScopeSweep` and `ScopeRest` what it leaves behind, and `ScopeTree.Arena` is the code, proved
to do just that.

**Plugin host** (`PluginHost`, `RetryPolicy`, `CapabilityCatalog`). Generations, the bounded restart
cycle, and the capability index, over a kernel that may fail any process at any time; per call and over any
sequence of public calls. Whatever is done to one plugin, the others keep slot, generation and connection, and only
refreshes move their processes (`PluginHost.Stays`).

**Persona renderer** (`Persona`) and **web history** (`WebHistory`). The budget loop and the escaping
chain; the numbering, paging and publication of session events. What a web call does is decided by the queues it
finds: the host refines a small machine over queue lengths, `WebHistory.Next`.

## What the proofs show about the code

- The coordinator never drops an event: budgets bound the history of a reachable document by 160 events,
  far below the stored maximum, so the truncation branch of the event list is not taken
  (`CoordinatorLedger.NothingIsEverTruncated`).
- A save whose last call fails reports success and leaves its backup behind. If the primary later cannot be
  read, the loader returns that stale backup: exactly when the read fails and the backup is not the current
  document (`SavedFile.ReadFaultFindsStaleBackup`, `SavedFile.StaleBackupIsReachable`).
- An explicit start that fails does not always leave the plugin quiet. If the old process cannot be told to stop,
  as when it exits between the refresh and the message, the start is given up before the controller is touched: an
  enabled plugin stays enabled, and the next refresh starts it again. This is the only such case
  (`PluginHost.Host.ManualStart`, `PluginHost.FailedStartStaysQuiet`, `PluginHost.RefusedStopComesBack`,
  `PluginHost.RefusedStopIsReachable`).
- The validation in `save` and `load_or_new` refuses no reachable document
  (`CoordinatorValidity.ValidationNeverRefuses`, `CoordinatorStore.Store.Save`).
- Cancelling a pending turn with a reason the log refuses, a blank one for instance, leaves the agent waiting
  for a decision about nothing, and every later call fails (`AgentSpine.Agent.CancelPendingTurn`,
  `AgentSpine.BlankReasonGetsStuck`, `AgentSpine.StuckForEver`). Nothing else gets it there
  (`AgentSpine.Perform`), and three public calls do (`AgentSpine.StuckIsReachable`).
- The check for an empty model response after the response is logged cannot succeed, since the log refuses a
  blank response first (`AgentSpine.Agent.Complete`).
- An effect that is being installed while its scope is disposed can stay Active in a Disposed scope; this
  happens exactly when an installation had passed its check and not inserted yet
  (`ScopeInterleaving.OnlyALateInstallSurvives`, `ScopeInterleaving.LateInstallIsReachable`).
- A fiber whose mount failed does not stay Failed: dropping its handle makes it Unmounted
  (`ScopeTree.Arena.EndMount`).
- The unmount branch inside runtime startup, and the missing-connection branches of a plugin invocation, are
  never taken (`CordisRuntime.Runtime.SelectPending`, `PluginHost.Host.Invoke`).
- Dropping a persona line can make the text longer, exactly when it is the first drop of its block and the
  line is shorter than the truncation marker (`Persona.DropChangesLength`).
- Web events take for granted that user and assistant take turns; nothing looks at the roles. A failed approval
  breaks that: the next prompt is published as an assistant message (`WebHistory.KindsFitAlternation`,
  `WebHistory.WebHost.Prompt`, `WebHistory.WebHost.Respond`, `WebHistory.FailedApprovalBreaksKinds`).
- A session event that meets a full queue is never published later. A prompt loses events exactly when the host
  queue has fewer than two places or the mux queue fewer than three for each of its messages; the reply to a decision
  exactly when the mux queue has one, two or three places left. Forty-three answered prompts whose events nobody
  takes reach it (`WebHistory.PerformAll`, `WebHistory.HolesStay`, `WebHistory.FullQueueLosesEvents`).

## Model

| member | source | states |
|---|---|---|
| `Coordinator.CollectBranch` | crates/yunxi-multi-agent/src/store.rs:322-336 | the queue walk ends on any document, cyclic or not, with exactly the agents reachable from the target by child links |
| `Coordinator.ClosedSetHoldsBranch` | crates/yunxi-multi-agent/src/store.rs:322-336 | a set that holds the target and is closed under children holds its whole branch |
| `Coordinator.TakeLeast` | crates/yunxi-multi-agent/src/store.rs:338-357 | marking proceeds in ascending id order |
| `Coordinator.MarkTargets` | crates/yunxi-multi-agent/src/store.rs:338-357 | marks each target that is not interrupted yet, once, in ascending order, and pushes one event for each |
| `Coordinator.InterruptOn` | crates/yunxi-multi-agent/src/store.rs:312-359 | interrupts exactly the branch, or the one agent, skipping those already interrupted; an unknown agent is an error |
| `Coordinator.InterruptMarksBranch` | crates/yunxi-multi-agent/src/store.rs:312-359 | afterwards the whole branch is Interrupted and no other agent differs |
| `Coordinator.MarkEachAgents` | crates/yunxi-multi-agent/src/store.rs:338-357 | marking changes the status of the listed agents and nothing else of any agent |
| `Coordinator.RecoverDocument` | crates/yunxi-multi-agent/src/store.rs:405-424 | a restart fails exactly the running agents, one event each, and takes over the instance |
| `CoordinatorMeaning.NewAgentJoinsBranches` | crates/yunxi-multi-agent/src/store.rs:122-143 | a new agent belongs to the branch of its parent and to every branch its parent belongs to |
| `CoordinatorMeaning.SpawnMeans` | crates/yunxi-multi-agent/src/store.rs:82-147 | a spawn adds one agent at the end, with the parent that was asked for, exactly the grants asked for, a level one below its parent (1 under the root), an empty transcript and its own event; no other agent differs |
| `CoordinatorMeaning.InterruptMeans` | crates/yunxi-multi-agent/src/store.rs:312-387 | an interrupt sets exactly the branch, or the one agent, to Interrupted and adds one event for each agent that was not interrupted, in order of the ids |
| `CoordinatorMeaning.RecoveryMeans` | crates/yunxi-multi-agent/src/store.rs:405-424 | a restart fails exactly the running agents and adds one event for each in stored order |
| `CoordinatorMeaning.ApplyOutcome` | crates/yunxi-multi-agent/src/store.rs:73-310 | a spawn, start, completion or failure succeeds exactly if none of its checks forbids it, and is otherwise refused with the error of the first that does; a start adds the message and one turn, a completion the reply, a failure nothing, each to this agent only |
| `CoordinatorRuns.StepKeepsForest` | crates/yunxi-multi-agent/src/store.rs:73-147 | every step keeps distinct ids, parents before children, depth within budget and attenuated grants |
| `CoordinatorRuns.RunsKeepForest` | crates/yunxi-multi-agent/src/store.rs:73-147 | so does every run from a new document |
| `CoordinatorRuns.DepthIsDistance` | crates/yunxi-multi-agent/src/store.rs:109-127 | the stored depth is the number of links to the root and within the stored budget |
| `CoordinatorRuns.GrantsAreAllowed` | crates/yunxi-multi-agent/src/store.rs:97-101 | no agent holds a grant the document does not allow |
| `CoordinatorRuns.ChildrenComeLater` | crates/yunxi-multi-agent/src/store.rs:528-535 | branches lead to later agents only, so there are no parent cycles |
| `CoordinatorRuns.InterruptSealsBranch` | crates/yunxi-multi-agent/src/store.rs:312-359 | after a recursive interrupt the branch is closed under children and all Interrupted |
| `CoordinatorRuns.StepKeepsSealedBranch` | crates/yunxi-multi-agent/src/store.rs:198-207 | no step adds to a sealed branch or changes a record of it |
| `CoordinatorRuns.SealedBranchPersists` | crates/yunxi-multi-agent/src/store.rs:252-256 | neither does any run |
| `CoordinatorRuns.InterruptIsForever` | crates/yunxi-multi-agent/src/store.rs:312-359 | after a recursive interrupt, in every later state the agent has the same descendants with the very same records, all Interrupted |
| `CoordinatorLedger.StepKeepsTurns` | crates/yunxi-multi-agent/src/store.rs:181-310 | each step keeps turn counts equal to user entries, and each assistant entry after a user entry |
| `CoordinatorLedger.StepKeepsLedger` | crates/yunxi-multi-agent/src/store.rs:549-564 | each step keeps the stored events equal to the tail of a gaplessly numbered history that accounts for every status |
| `CoordinatorLedger.RunsKeepLedger` | crates/yunxi-multi-agent/src/store.rs:549-564 | so does every run |
| `CoordinatorLedger.TurnsAreConserved` | crates/yunxi-multi-agent/src/store.rs:181-310 | total turns are the sum over agents, the user entries and the start events; running agents are starts minus completions, failures, interruptions and restart losses |
| `CoordinatorLedger.NothingIsEverTruncated` | crates/yunxi-multi-agent/src/store.rs:149-166 | a reachable document has at most 160 events and stores its whole history |
| `CoordinatorLedger.TruncatedMeansLongHistory` | crates/yunxi-multi-agent/src/store.rs:149-166 | a listing is truncated exactly when the history is longer than the stored tail |
| `CoordinatorValidity.NamesDiffer` | crates/yunxi-multi-agent/src/store.rs:118-121 | agents spawned under different sequence numbers have different ids |
| `CoordinatorValidity.NamesReadBack` | crates/yunxi-multi-agent/src/store.rs:116-119 | an agent is called by its sequence number, which can be read off its id |
| `CoordinatorValidity.RunsKeepNames` | crates/yunxi-multi-agent/src/store.rs:499-540 | agents are named after their places and every reachable document is valid |
| `CoordinatorValidity.ValidationNeverRefuses` | crates/yunxi-multi-agent/src/store.rs:434-436 | on such a document, whatever an operation that succeeded makes of it passes validation |
| `CoordinatorStore.Store.Save` | crates/yunxi-multi-agent/src/store.rs:434-466 | a save stores the document or fails, and leaves a loadable directory either way; a writable store with a usable disk stores every reachable document |
| `CoordinatorStore.Store.LoadOrNew` | crates/yunxi-multi-agent/src/store.rs:389-432 | nothing saved: a blank document with the authority of the store; a document of another instance has its running agents failed, and is saved at once by a writable store; one that this store may not load is refused; an admitted document on a usable disk loads |
| `CoordinatorStore.Store.Execute` | crates/yunxi-multi-agent/src/store.rs:73-147 | a request beyond the authority, malformed or without write grant is turned away with that error and touches nothing; otherwise, whatever fails or dies on the way, the saved document stays reachable and is as before, recovered, or what the operation means for the recovered one; a success reports the saved document and means no check forbade it; on a usable disk the reply is exactly that of the operation |
| `CoordinatorStore.Store.ChangeAndSave` | crates/yunxi-multi-agent/src/store.rs:129-146 | the operation is applied to the loaded document and its result saved; the reply is that of the operation unless the disk fails |
| `CoordinatorStore.Store.List` | crates/yunxi-multi-agent/src/store.rs:149-166 | lists the loaded document and never reports a reachable one as truncated |
| `CoordinatorStore.ReachableForest` | crates/yunxi-multi-agent/src/store.rs:499-540 | what validation does not check holds of every reachable document: a forest, depths in budget, attenuated grants |
| `CoordinatorStore.RecoveryIsStep` | crates/yunxi-multi-agent/src/store.rs:405-424 | a restart is one of the steps of a run |
| `SavedFile.Directory.WriteTemp` | crates/yunxi-multi-agent/src/store.rs:668-689 | the new document is complete under a temporary name, or the save fails or dies, each in exactly the stated cases; primary and backup are untouched |
| `SavedFile.Directory.RetirePrimary` | crates/yunxi-multi-agent/src/store.rs:690-702 | a present primary becomes the only backup, unless one of its calls fails or the process dies |
| `SavedFile.Directory.Promote` | crates/yunxi-multi-agent/src/store.rs:703-717 | the temporary file becomes the primary; if that fails, a backup is put back unless that fails too, and no document is committed |
| `SavedFile.Directory.ReplaceFile` | crates/yunxi-multi-agent/src/store.rs:668-717 | however many calls run before the process dies, a loader finds the old document or the whole new one; the process dies exactly if the save needs more calls, fails exactly if one of the deciding calls fails, and success means the new document; a save that fails leaves a present primary in place unless putting it back fails too |
| `SavedFile.Directory.Load` | crates/yunxi-multi-agent/src/store.rs:625-666 | the primary, else the backup, else nothing |
| `SavedFile.RunAttempts` | crates/yunxi-multi-agent/src/store.rs:625-717 | over any number of saves that fail or die anywhere the loader finds a whole document that was handed to some save, no older than the last successful one |
| `SavedFile.ReadFaultFindsStaleBackup` | crates/yunxi-multi-agent/src/store.rs:625-634 | with an unreadable primary the loader returns a document that is not the current one exactly when the backup is stale |
| `SavedFile.StaleBackupIsReachable` | crates/yunxi-multi-agent/src/store.rs:713-717 | a reported success can leave a stale backup |
| `SessionLog.Log.Append` | crates/yunxi-agent-spine/src/session.rs:322-361 | appends the event with the next number exactly when it is valid and within all limits; otherwise nothing changes and the error names the first limit it meets; while there is room, a valid event of admissible size is taken |
| `SessionLog.Log.LoggedIsAcceptable` | crates/yunxi-agent-spine/src/session.rs:181-267 | user and final texts in a log say something and are within the text limit, batches have one to sixteen calls with ids of their own, and numbers have no gap |
| `SessionLog.OneMoreTakesOne` | crates/yunxi-agent-spine/src/session.rs:322-361 | an event takes the room of at most one event of the greatest size |
| `SessionLog.Log.ResetWithMessages` | crates/yunxi-agent-spine/src/session.rs:309-316 | replaces seed and events exactly when the seed is valid and fits; otherwise nothing changes |
| `SessionLog.Log.CheckSeed` | crates/yunxi-agent-spine/src/session.rs:516-547 | accepts a seed exactly when each message content, encoded tool outcomes included, is free of NUL and within the text limit and the total fits |
| `SessionLog.Log.Conversation` | crates/yunxi-agent-spine/src/session.rs:387-422 | the seed followed by the messages of the events in order |
| `SessionLog.ProjectionJoins` | crates/yunxi-agent-spine/src/session.rs:387-422 | the conversation of a log is that of any prefix followed by that of the rest |
| `ToolBroker.Broker.ExecuteDirectly` | crates/yunxi-agent-spine/src/tool.rs:207-224 | a wrapped broker refuses the direct path and runs nothing; another runs the tool once and gives its answer |
| `ToolBroker.Broker.ExecuteWithApproval` | crates/yunxi-agent-spine/src/tool.rs:226-306 | case by case: a decision must be about this call and valid; an approval, or a policy that executes, gives the tool's own answer, and nothing else runs the tool; a denial or a policy rejection is a rejected outcome with that code and text, or an error if it does not fit; a request is shown exactly when there is no decision and the policy has a valid one for this very call; each refusal has its error code |
| `AgentTurn.RepliesAreInOrder` | crates/yunxi-agent-spine/src/session.rs:400-410 | one reply per settled call, in call order, with that call's id and name |
| `AgentTurn.CallSettles` | crates/yunxi-agent-spine/src/agent.rs:642-658 | recording a result adds exactly its reply and one spent tool call |
| `AgentTurn.RoundCloses` | crates/yunxi-agent-spine/src/agent.rs:526-540 | a finished batch joins the rounds without adding a message |
| `AgentTurn.InOrderAllAlong` | crates/yunxi-agent-spine/src/agent.rs:424-660 | a turn whose events follow the protocol of a turn followed it at every point, and had not ended before its last event |
| `AgentTurn.EndsOnce` | crates/yunxi-agent-spine/src/agent.rs:513-525 | its end, by text, failure or cancellation, is its last event and there is no other |
| `AgentTurn.DecisionFollowsRequest` | crates/yunxi-agent-spine/src/agent.rs:618-656 | a request for a decision is followed by a decision about that very call and then by its result, or by the end of the turn |
| `AgentTurn.ApprovalPreservesTheTurn` | crates/yunxi-agent-spine/src/agent.rs:424-660 | a direct and an approval-aware turn that complete on the same model answers and outcomes have the same rounds, final text and messages |
| `AgentTurn.ApprovedTurnsSettleDirectly` | crates/yunxi-agent-spine/src/tool.rs:226-268 | a turn in which nothing was denied or rejected settles every call as a direct turn with the same tools would |
| `AgentTurn.OnlyApprovedCallsRun` | crates/yunxi-agent-spine/src/tool.rs:61-110 | with a policy that always asks, every such tool run had an accepted Approved decision matching its turn, round, id and name and a request on record; `AgentSpine.Agent.RunsWereRequested` finds the request in the log |
| `AgentTurn.EachDecisionRunsOnce` | crates/yunxi-agent-spine/src/agent.rs:597-630 | no accepted decision runs two tools |
| `AgentTurn.BrokerIsSafe` | crates/yunxi-agent-spine/src/tool.rs:112-154 | whatever the broker runs for a call keeps both properties |
| `AgentSpine.Agent.constructor` | crates/yunxi-agent-spine/src/agent.rs:131-156 | a new agent is Ready with nothing pending |
| `AgentSpine.Agent.SettleCall` | crates/yunxi-agent-spine/src/agent.rs:597-657 | one call costs one tool call and ends with its recorded outcome or with a recorded request, in the order of the protocol; tools run only as allowed, at most one and only if charged, within the budget whatever comes of it; with nothing failing and room for two events only a spent tool budget prevents a result |
| `AgentSpine.Agent.Suspend` | crates/yunxi-agent-spine/src/agent.rs:618-628 | a turn suspends only after its request is among the events of the turn |
| `AgentSpine.Agent.RecordResult` | crates/yunxi-agent-spine/src/agent.rs:642-656 | the outcome is logged for its own call and the turn stands before the next one |
| `AgentSpine.Agent.ProcessToolBatch` | crates/yunxi-agent-spine/src/agent.rs:588-660 | settles the calls from the given one on in order, or stops before the one that was asked about; the decision serves the first only |
| `AgentSpine.Agent.Ask` | crates/yunxi-agent-spine/src/agent.rs:441-512 | one model call per round, within the round and model budgets, its answer logged after context and request; a batch it accepts is within the calls of a round |
| `AgentSpine.Agent.Complete` | crates/yunxi-agent-spine/src/agent.rs:513-525 | a text answer completes the turn, with its end in the log; it is never blank |
| `AgentSpine.Agent.RunRound` | crates/yunxi-agent-spine/src/agent.rs:441-540 | a round completes the turn, suspends it, or leads to the next round with all its calls settled |
| `AgentSpine.Agent.RunRounds` | crates/yunxi-agent-spine/src/agent.rs:439-542 | the rounds end; whatever the turn comes to, rounds, model calls and tool calls are within budget and no more tools ran than were charged; a turn that does not fail is complete or suspended with model calls = round = logged requests and tool calls = results + requests |
| `AgentSpine.Agent.RunTurnInner` | crates/yunxi-agent-spine/src/agent.rs:424-542 | a fresh turn starts at the end of the log and leaves what was there |
| `AgentSpine.Agent.ContinuePendingTurn` | crates/yunxi-agent-spine/src/agent.rs:545-585 | a decided turn resumes at its call and ends like any other, having spent at least one more tool call |
| `AgentSpine.Agent.BeginTurn` | crates/yunxi-agent-spine/src/agent.rs:241-248 | every turn has a number of its own |
| `AgentSpine.Agent.RunTurn` | crates/yunxi-agent-spine/src/agent.rs:224-295 | a direct turn leaves the agent Ready; success means the log grew by exactly this complete turn; whatever it comes to, its counters are within budget and the tools that ran within its tool calls; a promising turn fails only when rounds, model calls or tool calls are spent |
| `AgentSpine.Agent.RunTurnWithApproval` | crates/yunxi-agent-spine/src/agent.rs:301-339 | an approval-aware turn leaves the agent Ready, or waiting with that request pending and in the log; the same bounds; a promising one fails only on a spent budget, and suspends if the first answer asks first for a call that needs a decision |
| `AgentSpine.Agent.LastTurnIsBounded` | crates/yunxi-agent-spine/src/agent.rs:424-660 | between calls, the last turn, complete, suspended, failed or cancelled, kept the three bounds, and no more tools ran in it than it was charged for |
| `AgentSpine.Agent.FinishTurnOutcome` | crates/yunxi-agent-spine/src/agent.rs:662-718 | pending exactly when awaiting, Ready otherwise; a failure is noted at the end of the log if the log takes it |
| `AgentSpine.Agent.Fail` | crates/yunxi-agent-spine/src/agent.rs:692-718 | a turn that was stopped ends the log with a cancellation that gives the reason, any other failed turn with a failure, exactly if the log takes it |
| `AgentSpine.Agent.CompleteTurnIsInOrder` | crates/yunxi-agent-spine/src/agent.rs:424-542 | a complete turn wrote its events in the order of the protocol, from its start to TurnCompleted with the final text |
| `AgentSpine.Agent.ApprovePendingTool` | crates/yunxi-agent-spine/src/agent.rs:355-392 | accepted exactly if the decision names the requested round, call and tool, is valid, carries a ticket where it approves, and nobody stopped the caller; otherwise nothing changes and the error says which; an accepted one answers a request that is in the log, is recorded, and resumes the same turn over the same earlier log; the whole turn stays within budget; with nothing failing and room in the log only a spent budget makes it fail |
| `AgentSpine.Agent.RunsWereRequested` | crates/yunxi-agent-spine/src/tool.rs:61-110 | with a policy that always asks, every tool run in an approval-aware turn, and every tool run by a wrapped broker, had its request in the log, and an accepted Approved decision for the same turn, round, id and name |
| `AgentSpine.Agent.CancelPendingTurn` | crates/yunxi-agent-spine/src/agent.rs:399-421 | runs no tool; the agent is Ready again, with the cancellation at the end of the log, exactly if the log takes it, and stuck otherwise |
| `AgentSpine.Agent.ResetConversation` | crates/yunxi-agent-spine/src/agent.rs:188-198 | only while Ready; then the conversation is the given one and no last turn is left |
| `AgentSpine.Agent.CompletedConversation` | crates/yunxi-agent-spine/src/session.rs:387-422 | a complete turn adds its user message, per round one tool-calls message and its replies, and the final text |
| `AgentSpine.ApprovalKeepsTheConversation` | crates/yunxi-agent-spine/src/agent.rs:424-660 | however often it was suspended, an approval-aware turn adds the same messages as a direct one with the same answers and outcomes |
| `AgentSpine.Perform` | crates/yunxi-agent-spine/src/agent.rs:188-421 | of all public calls only a cancellation the log refuses gets the agent stuck; no call runs more tools than the tool budget |
| `AgentSpine.StuckForEver` | crates/yunxi-agent-spine/src/agent.rs:399-421 | once stuck, every call of any sequence fails, and log, seed and executions stay as they are |
| `AgentSpine.BlankReasonGetsStuck` | crates/yunxi-agent-spine/src/agent.rs:399-421 | a blank reason, which no log accepts, gets a pending agent stuck |
| `AgentSpine.StuckIsReachable` | crates/yunxi-agent-spine/src/agent.rs:399-421 | a new agent sent a message is asked for a decision, cancelled with a blank reason, and then every call fails |
| `AgentSpine.DecideAll` | crates/yunxi-agent-spine/src/agent.rs:355-392 | answering every request ends a suspended turn after finitely many decisions, within the tool budget of one turn |
| `CordisRuntime.LeastFixpointIsUnique` | crates/yunxi-cordis-runtime/src/runtime.rs:188-264 | the mounted set is determined by the wanted plugins and their dependencies, not by their order |
| `CordisRuntime.MountStaysBelow` | crates/yunxi-cordis-runtime/src/runtime.rs:188-264 | a plugin whose dependencies are met belongs to every saturated set |
| `CordisRuntime.Runtime.MountIndex` | crates/yunxi-cordis-runtime/src/runtime.rs:548-625 | asks the plugin once; a mount ends Mounted with its fiber or Failed without one, with phase and attempts noted, touches one entry, and is refused while a fiber is held |
| `CordisRuntime.Runtime.UnmountIndex` | crates/yunxi-cordis-runtime/src/runtime.rs:627-677 | asks a plugin that holds a fiber exactly once; the fiber is given up even when disposal fails, which is the result; without a fiber nothing is asked; required plugins are refused unless allowed |
| `CordisRuntime.Runtime.TryMount` | crates/yunxi-cordis-runtime/src/runtime.rs:193-227 | a pending plugin mounts, is deferred for a missing dependency, or fails |
| `CordisRuntime.Runtime.MountPass` | crates/yunxi-cordis-runtime/src/runtime.rs:190-228 | one pass sorts every pending plugin into mounted, deferred or failed, in order |
| `CordisRuntime.Runtime.MountPasses` | crates/yunxi-cordis-runtime/src/runtime.rs:188-264 | passes end and leave nothing pending; a dependency failure still lacks a required service |
| `CordisRuntime.Runtime.SelectPending` | crates/yunxi-cordis-runtime/src/runtime.rs:150-186 | unwanted entries hold no fiber, so startup unmounts nothing |
| `CordisRuntime.Runtime.PassesReachFixpoint` | crates/yunxi-cordis-runtime/src/runtime.rs:188-264 | with outcomes fixed per plugin the passes end at the least fixpoint |
| `CordisRuntime.Runtime.StartDefault` | crates/yunxi-cordis-runtime/src/runtime.rs:137-266 | startup ends with nothing pending, reports each plugin once, fails exactly when a required plugin failed, and reaches the least fixpoint |
| `CordisRuntime.Runtime.MountPlugin` | crates/yunxi-cordis-runtime/src/runtime.rs:270-288 | an explicit mount stores the override of an optional plugin, asks the plugin exactly if it holds no fiber, changes one entry and keeps all settled; it is refused for an unknown plugin and while a fiber is held |
| `CordisRuntime.Runtime.ApplyWish` | crates/yunxi-cordis-runtime/src/runtime.rs:315-347 | an entry that holds a fiber and is not wanted is unmounted by one question to the plugin, one that holds none and is wanted after startup is mounted by one, and otherwise no plugin is asked and the services stay; the result is what the plugin answered |
| `CordisRuntime.Runtime.SetEnabled` | crates/yunxi-cordis-runtime/src/runtime.rs:300-347 | a required plugin cannot be disabled; otherwise the entry is toggled as ApplyWish says, no other entry changes, `enabled` is the override, and a fiber is held exactly when Mounted |
| `CordisRuntime.Runtime.ClearOverride` | crates/yunxi-cordis-runtime/src/runtime.rs:354-396 | an optional entry is toggled to its manifest default as ApplyWish says, a required one is left alone; all entries stay settled |
| `CordisRuntime.Runtime.OneMoreStops` | crates/yunxi-cordis-runtime/src/runtime.rs:467-478 | one more plugin is asked after those registered later, exactly if it holds a fiber |
| `CordisRuntime.Runtime.Shutdown` | crates/yunxi-cordis-runtime/src/runtime.rs:463-488 | asks exactly the plugins that hold a fiber to unmount, the last registered first, each with the services the one before left; fails exactly if one of them or the root does, and a plugin that fails goes first; closing twice changes nothing |
| `CordisRuntime.PerformAll` | crates/yunxi-cordis-runtime/src/runtime.rs:137-488 | over any sequence of calls, until a shutdown a required plugin keeps its fiber and every plugin is enabled as the wishes taken so far say; from a shutdown on nothing is mounted |
| `CordisRuntime.OrderDoesNotMatter` | crates/yunxi-cordis-runtime/src/runtime.rs:137-266 | two orders of the same wanted plugins start the same plugins and services |
| `ScopeInterleaving.StepKeepsInv` | crates/yunxi-cordis-core/src/context.rs:282-404 | every lock section of every thread keeps each disposer in one place |
| `ScopeInterleaving.EachDisposerRunsAtMostOnce` | crates/yunxi-cordis-core/src/effect.rs:61-75 | in every interleaving each disposer runs at most once, and only for an inserted effect that left Active |
| `ScopeInterleaving.ActiveEffectsAreArmed` | crates/yunxi-cordis-core/src/context.rs:303-318 | an Active record owns its disposer, so taking it cannot fail |
| `ScopeInterleaving.NothingIsLostAtRest` | crates/yunxi-cordis-core/src/context.rs:303-404 | when all calls have returned every effect is Active and unrun, or settled and run |
| `ScopeInterleaving.OutcomesAreTrue` | crates/yunxi-cordis-core/src/context.rs:303-404 | in every interleaving an effect that ended Disposed had its disposer run well, and one that ended Failed had it fail |
| `ScopeInterleaving.OnlyALateInstallSurvives` | crates/yunxi-cordis-core/src/context.rs:282-294 | after a disposal began, an effect can be Active later if and only if an installation was between its check and its insertion |
| `ScopeInterleaving.LateInstallIsReachable` | crates/yunxi-cordis-core/src/context.rs:282-294 | such a run exists and ends with a Disposed scope that holds an Active effect |
| `ScopeOrder.OrderCovers` | crates/yunxi-cordis-core/src/context.rs:345-391 | exactly the Active effects of the swept scopes are in the running order |
| `ScopeOrder.OrderIsRight` | crates/yunxi-cordis-core/src/context.rs:353-391 | each of them once, inner scopes before outer ones, newer effects before older ones |
| `ScopeOrder.SweptIsClosed` | crates/yunxi-cordis-core/src/context.rs:345-372 | the sweep reaches the open scope of every fiber registered in it |
| `ScopeOrder.BranchesAreApart` | crates/yunxi-cordis-core/src/context.rs:184-199 | two child branches of a scope share no scope |
| `ScopeSweep.FirstFailure` | crates/yunxi-cordis-core/src/context.rs:366-403 | an error is reported exactly if some disposer failed, and it is one that did |
| `ScopeSweep.ActiveHierarchy` | crates/yunxi-cordis-core/src/context.rs:486-496 | the hierarchy is active exactly when every scope around is |
| `ScopeSweep.LookupFinds` | crates/yunxi-cordis-core/src/context.rs:442-456 | in an active hierarchy a service is found exactly when some scope around offers it |
| `ScopeSweep.TakeEffects` | crates/yunxi-cordis-core/src/context.rs:353-364 | takes exactly the Active effects, newest first |
| `ScopeSweep.SweepIsRecorded` | crates/yunxi-cordis-core/src/context.rs:330-404 | after a sweep each effect has run exactly if it is not Active, and none twice |
| `ScopeRest.DisposalKeepsRest` | crates/yunxi-cordis-core/src/context.rs:330-404 | a disposal keeps every invariant that holds between calls |
| `ScopeRest.DisposalIsComplete` | crates/yunxi-cordis-core/src/context.rs:330-404 | a returned dispose leaves the swept scopes Disposed and empty; each formerly Active effect is Failed or Disposed as its disposer went, other effects and everything else stay as they were |
| `ScopeRest.DisposalRunsInOrder` | crates/yunxi-cordis-core/src/context.rs:366-403 | it ran each formerly Active effect of these scopes exactly once, in the right order, and succeeds exactly if none failed |
| `ScopeRest.NothingBelowStaysOpen` | crates/yunxi-cordis-core/src/context.rs:366-372 | every fiber registered in the branch ends Unmounted with a Disposed scope |
| `ScopeTree.DependenciesAreMet` | crates/yunxi-cordis-core/src/plugin.rs:288-296 | in an active hierarchy the dependency check passes exactly when every required service is offered around the scope |
| `ScopeTree.MountIsLetIn` | crates/yunxi-cordis-core/src/plugin.rs:269-308 | a mount is let in exactly when its dependencies are not too many, every scope around is active, every required service is offered there, and no fiber of the plugin is registered with the scope |
| `ScopeTree.Arena.EnsureHierarchyActive` | crates/yunxi-cordis-core/src/context.rs:486-496 | names the first closed scope upwards, if any |
| `ScopeTree.Arena.HasService` | crates/yunxi-cordis-core/src/context.rs:442-456 | stops at the first scope that is closed or offers the service |
| `ScopeTree.Arena.RunAndClose` | crates/yunxi-cordis-core/src/context.rs:373-403 | runs the taken disposers in order, settles each, and closes the scope, keeping the first error |
| `ScopeTree.Arena.DisposeFibers` | crates/yunxi-cordis-core/src/context.rs:366-372 | disposes the fiber scopes in order and leaves every fiber Unmounted |
| `ScopeTree.Arena.DisposeScope` | crates/yunxi-cordis-core/src/context.rs:330-404 | the code of dispose does what the running order and the sweep say; a Disposed scope is left alone, a Disposing one refused |
| `ScopeTree.Arena.Dispose` | crates/yunxi-cordis-core/src/context.rs:330-404 | between calls it also keeps all invariants |
| `ScopeTree.Arena.Child` | crates/yunxi-cordis-core/src/context.rs:184-199 | a child scope is made exactly while the hierarchy is active |
| `ScopeTree.Arena.Provide` | crates/yunxi-cordis-core/src/context.rs:205-228 | a service is added exactly while the hierarchy is active and the name is free |
| `ScopeTree.Arena.InstallEffect` | crates/yunxi-cordis-core/src/context.rs:282-294 | an effect is installed exactly while the hierarchy is active; otherwise it is dropped without running |
| `ScopeTree.Arena.DisposeEffect` | crates/yunxi-cordis-core/src/context.rs:303-328 | only an Active effect runs, once, and settles; others are refused |
| `ScopeTree.Arena.CheckDependencies` | crates/yunxi-cordis-core/src/plugin.rs:288-296 | the first dependency that meets a closed scope or is required and missing refuses the mount |
| `ScopeTree.Arena.BeginMount` | crates/yunxi-cordis-core/src/plugin.rs:269-308 | a mount is refused for the first of its reasons, leaving at most an empty Disposed scope, or registers a fresh Mounting fiber with a fresh child scope |
| `ScopeTree.Arena.EndMount` | crates/yunxi-cordis-core/src/plugin.rs:310-336 | success makes the fiber Mounted; failure disposes what the plugin installed, unregisters the fiber and leaves it Unmounted |
| `ScopeTree.Arena.Unmount` | crates/yunxi-cordis-core/src/plugin.rs:232-258 | a Mounted fiber is torn down once; a Mounting one is refused; an Unmounted one is left alone |
| `RetryPolicy.NewController` | crates/yunxi-plugin-host/src/retry.rs:106-114 | a fresh cycle: enabled, no restart counted, no generation known or handled, at most three restarts |
| `RetryPolicy.RestartsAreBounded` | crates/yunxi-plugin-host/src/retry.rs:151-172 | within one cycle at most three restarts are granted, whatever is observed or reported |
| `RetryPolicy.ConsumedGenerationsIncrease` | crates/yunxi-plugin-host/src/retry.rs:128-172 | consumed generations strictly increase, so no failure counts twice |
| `RetryPolicy.DisabledStaysQuiet` | crates/yunxi-plugin-host/src/retry.rs:174-186 | a disabled controller grants nothing until an explicit restart |
| `RetryPolicy.FreshCycleRunsOut` | crates/yunxi-plugin-host/src/retry.rs:151-180 | after an explicit restart, whatever came before, as many crashes as the maximum are answered by the restarts number 1, 2 and so on, the next one by Disable, and later ones not at all |
| `RetryPolicy.LateFailureIsIgnored` | crates/yunxi-plugin-host/src/retry.rs:146-186 | a late failure of an earlier process is neither answered nor changes anything, right after an explicit restart, while disabled, and once another generation is observed |
| `CapabilityCatalog.IndexIsDetermined` | crates/yunxi-plugin-host/src/catalog.rs:78-128 | the provider index is a function of the plugin table |
| `CapabilityCatalog.Catalog.Register` | crates/yunxi-plugin-host/src/catalog.rs:78-115 | registers exactly new plugins with distinct capabilities and keeps the index exact |
| `CapabilityCatalog.Catalog.Unregister` | crates/yunxi-plugin-host/src/catalog.rs:117-128 | removes a plugin and its routes, leaving no empty set |
| `CapabilityCatalog.Catalog.ProvidersOf` | crates/yunxi-plugin-host/src/catalog.rs:134-146 | exactly the plugins that declare the capability in that version |
| `CapabilityCatalog.Catalog.ResolveUnique` | crates/yunxi-plugin-host/src/catalog.rs:148-169 | the one provider, or the error that says none or several |
| `CapabilityCatalog.RegisterThenUnregister` | crates/yunxi-plugin-host/src/catalog.rs:78-128 | unregistering undoes registering |
| `PluginHost.Host.KernelStart` | crates/yunxi-kernel/src/runtime/kernel.rs:78-127 | refused exactly while the kernel is stopped or the process is active; otherwise one new generation, which fails exactly if it cannot be spawned |
| `PluginHost.Host.KernelStop` | crates/yunxi-kernel/src/runtime/kernel.rs:128-153 | refused while the kernel is stopped, for an unknown process, or for an active one that cannot be told; then it is Stopping |
| `PluginHost.Host.FailConnection` | crates/yunxi-plugin-host/src/runtime.rs:605-638 | an error tagged with a generation drops a connection or fails a process of that generation only; the process it is about is no longer running afterwards; other plugins keep slot, generation and connection, and only refreshes move their processes |
| `PluginHost.Host.StartGeneration` | crates/yunxi-plugin-host/src/runtime.rs:380-463 | a new generation exactly if the process is not active, and a connection exactly if kernel, controller, handshake and catalog agree; a generation that does not connect is not left running; other plugins keep slots, generations, cycles and connections |
| `PluginHost.Host.Connect` | crates/yunxi-plugin-host/src/runtime.rs:394-462 | connected exactly if the controller is enabled, the handshake succeeds and the catalog takes the plugin; otherwise the process that was started is failed, and the error says which |
| `PluginHost.Host.StopCurrent` | crates/yunxi-plugin-host/src/runtime.rs:465-505 | the plugin loses its connection whatever the kernel answers, no other plugin does, and no generation starts; it fails exactly when an active process cannot be told to stop, and otherwise the process is not active any more |
| `PluginHost.Host.WaitForStop` | crates/yunxi-plugin-host/src/runtime.rs:483-503 | afterwards the process is not active; one that had ended at the first look is not declared failed |
| `PluginHost.Host.ManualStart` | crates/yunxi-plugin-host/src/runtime.rs:363-378 | a start that succeeds opens a fresh cycle; one that fails leaves the plugin enabled exactly if the stop was refused and it was enabled before, and nothing running unless the stop was refused; other plugins are untouched |
| `PluginHost.Host.Launch` | crates/yunxi-plugin-host/src/runtime.rs:162-183 | a new plugin is registered with a fresh cycle and started once, and stays enabled exactly if that start succeeds; a known one is refused; other plugins are untouched |
| `PluginHost.Host.ConsumeFailure` | crates/yunxi-plugin-host/src/runtime.rs:535-560 | a failure is consumed exactly if the controller is enabled, knows no newer generation and has not handled it; it becomes the current, handled one |
| `PluginHost.Host.RecoverFailedPlugin` | crates/yunxi-plugin-host/src/runtime.rs:535-576 | one failure pays for at most one restart or ends the cycle; a failed current generation is followed by a next one exactly if a restart is owed; other plugins are untouched |
| `PluginHost.Host.RestartAfterFailure` | crates/yunxi-plugin-host/src/runtime.rs:551-568 | a restart that comes up leaves the plugin enabled and connected, one that cannot be spawned leaves it enabled; otherwise it is disabled unless a newer generation has failed |
| `PluginHost.Host.RecoverFailedPlugins` | crates/yunxi-plugin-host/src/runtime.rs:507-533 | recovery ends after at most four rounds, stays within each plugin's cycle, pays every restart that is owed, and after fewer rounds leaves none owed |
| `PluginHost.Host.PruneInactiveConnections` | crates/yunxi-plugin-host/src/runtime.rs:584-598 | exactly the connections of active processes are left |
| `PluginHost.UpStayOn` | crates/yunxi-plugin-host/src/runtime.rs:300-305 | a plugin whose process is up, and that no refresh finds otherwise, keeps slot, generation and connection over any two stretches over which it does so one by one |
| `PluginHost.Host.Refresh` | crates/yunxi-plugin-host/src/runtime.rs:300-305 | refresh ends, grants no more generations than restarts left, starts no disabled plugin, restarts each one it finds failed with a restart owed, leaves only live connections, and leaves every plugin that is up as it is |
| `PluginHost.Host.AtMostThreeAutomaticStarts` | crates/yunxi-plugin-host/src/runtime.rs:507-576 | the generation is at most three beyond the one the last explicit start aimed at |
| `PluginHost.FailureIsBounded` | crates/yunxi-plugin-host/src/retry.rs:151-172 | an answered failure pays one restart or closes the cycle |
| `PluginHost.Host.Invoke` | crates/yunxi-plugin-host/src/runtime.rs:185-270 | refused exactly without a unique provider; what the caller is told follows from the exchange; a transport error or a wrong reply drops the connection and ends the process of that generation, and any other answer, a declined call included, changes neither connections nor processes |
| `PluginHost.Host.Disable` | crates/yunxi-plugin-host/src/runtime.rs:277-284 | the plugin is disabled and disconnected at once, whether or not its process can be told to stop, and if it can it is not active any more; other plugins are untouched |
| `PluginHost.Host.Shutdown` | crates/yunxi-plugin-host/src/runtime.rs:335-351 | no plugin slot, connection or catalog entry remains, no process is active or still to be started, and the kernel is stopped |
| `PluginHost.PerformCall` | crates/yunxi-plugin-host/src/runtime.rs:162-351 | of a plugin that a call does not start explicitly, generation plus restarts left do not grow, and it is enabled only if it was |
| `PluginHost.PerformCalls` | crates/yunxi-plugin-host/src/runtime.rs:162-351 | over any sequence of public calls without an explicit start of it, a plugin gets at most as many generations as restarts were left, so at most three, and a disabled one gets none and stays disabled; each failure is answered at most once |
| `PluginHost.FailedStartStaysQuiet` | crates/yunxi-plugin-host/src/runtime.rs:363-378 | after a failed explicit start no calls bring the plugin back until it is started again, unless the stop was refused and it was enabled |
| `PluginHost.RefusedStopComesBack` | crates/yunxi-plugin-host/src/runtime.rs:363-378 | in that case a refresh that finds the process failed, with a restart owed, starts it again |
| `PluginHost.RefusedStopIsReachable` | crates/yunxi-plugin-host/src/runtime.rs:363-378 | a launch, a refused restart and a refresh raise the generation |
| `Persona.SegmentsAreNested` | crates/yunxi-persona/src/compiler.rs:354-381 | of two initial segments of the drop order one contains the other |
| `Persona.MinimalDropIsUnique` | crates/yunxi-persona/src/compiler.rs:354-381 | the lines a budget forces out are determined by document and budget |
| `Persona.RenderShows` | crates/yunxi-persona/src/compiler.rs:383-401 | the text without the dropped lines: the root tags around the blocks in order, each between its own tags with the contents of its kept lines in order, one to a line, and the truncation marker after them exactly if a line is missing |
| `Persona.PickCandidate` | crates/yunxi-persona/src/compiler.rs:364-375 | the last line among those of lowest priority |
| `Persona.RenderWithBudget` | crates/yunxi-persona/src/compiler.rs:354-401 | ends within budget or with no optional line left, having dropped the one minimal initial segment of the order, and shows exactly the document without it, line by line |
| `Persona.RequiredLinesSurvive` | crates/yunxi-persona/src/compiler.rs:354-401 | every required line is in the output, whatever the budget |
| `Persona.DropChangesLength` | crates/yunxi-persona/src/compiler.rs:383-401 | a drop makes the text longer exactly when the marker it adds outweighs the line |
| `Persona.EscapeIsOnePass` | crates/yunxi-persona/src/compiler.rs:407-414 | the five replacements equal one pass over the characters |
| `Persona.UnescapeInvertsEscape` | crates/yunxi-persona/src/compiler.rs:407-414 | escaping loses nothing |
| `Persona.EscapedTextHasNoMarkup` | crates/yunxi-persona/src/compiler.rs:407-414 | no markup character is left and each ampersand opens a predefined entity (section 4.6 of XML 1.0) |
| `WebHistory.SessionEventValues` | crates/yunxi-cli/src/web.rs:1475-1533 | the generator gives message k its three events at 3k, numbered in order |
| `WebHistory.EachMessageIsShown` | crates/yunxi-cli/src/web.rs:1475-1533 | every message is shown by exactly one event, with its place, its text and the right number |
| `WebHistory.ClosedFormCountsEvents` | crates/yunxi-cli/src/web.rs:1557-1564 | the closed form counts the events of the earlier messages, and prefixes extend |
| `WebHistory.BackOverMessages` | crates/yunxi-cli/src/web.rs:1446-1456 | walks back over at most the page size of messages |
| `WebHistory.BackToTurnStart` | crates/yunxi-cli/src/web.rs:1457-1459 | then back to the turn start |
| `WebHistory.AtMostOneMore` | crates/yunxi-cli/src/web.rs:1457-1459 | which adds at most one message |
| `WebHistory.KindsFitAlternation` | crates/yunxi-cli/src/web.rs:1475-1533 | event kinds agree with message roles exactly when user and assistant take turns, the user first |
| `WebHistory.HistoryPage` | crates/yunxi-cli/src/web.rs:1436-1465 | a page starts on a turn and shows at most size + 1 messages; without a cursor it goes to the newest event, with one to the event before the cursor, or to the newest if that comes first |
| `WebHistory.PageBackToStart` | crates/yunxi-cli/src/web.rs:1436-1465 | asking for the newest page and then for what comes before each page ends and covers the list exactly once, each page good |
| `WebHistory.HolesStay` | crates/yunxi-cli/src/web.rs:1055-1067 | what was not published is not made up for by later publication |
| `WebHistory.PublishedGrows` | crates/yunxi-cli/src/web.rs:989-1014 | publishing new events keeps order; publication stays complete exactly if all are sent |
| `WebHistory.NothingSentLeavesHole` | crates/yunxi-cli/src/web.rs:1055-1067 | publishing nothing of a grown history loses completeness |
| `WebHistory.WebHost.PublishTurnEvents` | crates/yunxi-cli/src/web.rs:1055-1067 | sends the events from the given message on, in order, as many as the queue has places for |
| `WebHistory.WebHost.EnsureWebSession` | crates/yunxi-cli/src/web.rs:1017-1026 | switching sessions loads the stored history and starts a new publication; the active session is left as it is |
| `WebHistory.WebHost.CreateSession` | crates/yunxi-cli/src/web.rs:596-640 | refused while a decision is awaited; otherwise a blank session with a new publication, announced while the queues have places |
| `WebHistory.WebHost.CompletePrompt` | crates/yunxi-cli/src/web.rs:989-1014 | the queues before the call decide where it ends and what it leaves behind: two places for status events, three for each message, one for the approval request |
| `WebHistory.WebHost.Prompt` | crates/yunxi-cli/src/web.rs:930-1014 | refused while a decision is awaited or if the session cannot be loaded; otherwise every event of the session stays published exactly if it was and both queues have the places, and the outcome is determined by them |
| `WebHistory.WebHost.Respond` | crates/yunxi-cli/src/web.rs:1132-1194 | where a decision ends, what it adds to the history and whether every event stays published is determined by the mux queue before it |
| `WebHistory.WebHost.TakeEvents` | crates/yunxi-cli/src/web.rs:1234-1259 | takes what there is, up to a count; an approval that is still awaited is shown again once the queue is empty |
| `WebHistory.RunsOnOneSession` | crates/yunxi-cli/src/web.rs:930-1194 | the condition over a whole run, call by call: two places for status events and three for each message, or four for the reply to a decision, and nobody speaking twice |
| `WebHistory.StaysInStep` | crates/yunxi-cli/src/web.rs:989-1194 | which calls leave a user message unanswered with no decision to wait for: those without status places, those that wait without places for their message, and decisions that fail or lead nowhere |
| `WebHistory.PerformAll` | crates/yunxi-cli/src/web.rs:930-1194 | over any calls on one session, everything is published once and in order if and only if each call found room for its own events in the queues, and event kinds fit the roles if and only if no call added a message out of turn |
| `WebHistory.FullQueueLosesEvents` | crates/yunxi-cli/src/web.rs:1055-1067 | a run of prompts loses events, and taking all events and prompting again does not bring them back |
| `WebHistory.FailedApprovalBreaksKinds` | crates/yunxi-cli/src/web.rs:1171-1191 | after a failed approval the next prompt is published as an assistant message |

## Left out

- Names, timestamps, text lengths and encoded sizes of coordinator documents: they are flags or left out; the numbers that budgets bound are exact.
- CoordinatorStore.Store.Execute: the lock against a second process is not modelled; one process uses the directory at a time.
- SavedFile.Directory.ReplaceFile: file names are fixed, and contents are whole documents or an incomplete write; encoding is taken as injective.
- SessionLog.Log.Append: byte lengths are character counts, whitespace is the ASCII kind, and sizes of encoded events are an arbitrary function; message counts in events are left out.
- ToolBroker.Broker.ExecuteWithApproval: error texts are left out, error codes of the spine are names; brokers that override the approval path itself are not modelled.
- AgentSpine.Agent.ApprovePendingTool: the cancellation token is an arbitrary answer per poll; shared ownership of the token is not modelled.
- Agent: the 2^64 limits of sequence numbers and turn ids are exact; the saturating 16- and 32-bit counters cannot saturate within a valid budget and are plain numbers. An invalid budget is refused when a configuration is built and is a precondition here.
- Agent: model, context, broker and log are owned values in the source; here the log and the broker are separate objects that nothing else shares.
- CordisRuntime.Runtime.StartDefault: which required plugin is named first in the error is one error here; registry positions stand for ids in reports; panics in plugin code are failures.
- ScopeTree.Arena.InstallEffect: disposers that call back into scopes while they run are not modelled, and neither are poisoned locks; concurrency is in `ScopeInterleaving`, for one scope.
- ScopeTree.Arena.BeginMount: the plugin's own mount code is whatever calls happen between BeginMount and EndMount; plugin id validation and a panicking dependency list are left out, and so is the second check of the hierarchy, which cannot differ between non-overlapping calls.
- ScopeTree.Arena.Provide: services are names without values or types; removal is left out.
- Fibers whose handle was dropped: a handle is kept until it is unmounted, so weak references always resolve.
- PluginHost.Host.Refresh: that a failed process stays failed until its next generation is a property of the kernel events; it is a premise where a restart is promised or a process is said to have ended, and everything else holds without it.
- PluginHost.Host: the acceptor, timeouts, grants and expected capabilities are one handshake answer; the kernel refresh is arbitrary; failed plugins of one snapshot are recovered in an arbitrary order; a generation number that saturates at 2^64 - 1 is not modelled.
- RetryPolicy and the coordinator document are values owned by one holder, as in the source; no aliasing is captured.
- WebHistory.HistoryPage: a page size of 0, which its caller never passes, indexes past the list in the source and is a precondition here; timestamps and payload encoding are left out.
- WebHistory.WebHost.Prompt: publish errors other than a full queue are left out.
- WebHistory.WebHost.TakeEvents: byte limits are part of the count; which events are taken is not kept, only how many.
- Persona: how blocks are built from a profile and memories, and the length bound on single texts.
- Mailbox cryptography, memory recall and scoring, event bus dispatch, composition layers, manifest and identifier validation, command line, REPL, HTTP model client, provider configuration, MCP and skills discovery: plumbing or single-pass checks that would add only easy members.
