# Verified model of n8n's backend state machines

This project models three pieces of the n8n server (`packages/cli/src`) and proves what they keep
over whole runs. `dafny verify dfyconfig.toml` checks all of it.

**Credential overwrites** (`CredentialGraph`, `CredentialTypes`, `CredentialsOverwrites`,
`OverwriteOrder`, `OverwriteReversal`). Overwrites are inherited along an `extends` graph in two
stages: a memoised recursion that stores some merges and not others, and a lookup that merges again
over an ancestor list which grows in place with every call. The growing arrays and the memo list are
modelled as they are; the theorems say that neither ever shows in the result, what the result is on
any acyclic graph, and exactly when the two stages agree on a type, provided that the first type on
the way up with several parents lists a recognised one last that it does not list first. One caller
reverses the stored array in place. As long as no type lists a parent again after another one (a
list without repetitions never does, `FirstOccurrences.TwoEnds`), a lookup of a type is indifferent
to all such reversals exactly when of any two ancestors one extends the other and the type itself
lists both, the farther one first; on a single chain that means at most one ancestor.

**Executions** (`Concurrency`, `ExecutionLifecycle`, `ExecutionSlots`, `ExecutionShutdown`,
`ExecutionTurns`, `ExecutionRuns`, `ExecutionOutcomes`, `ExecutionOrphans`, `ExecutionDrain`,
`ActiveExecutions`). A run is a record with an identity; `add` is split at its awaits; a promise
settles once and its callback is a later step. A sequence of events is then any interleaving of
these steps. The theorems are about every reachable state: slots are conserved, throttled calls get
their turn in the order in which they came, each promise, response and cancellation is told from the
step that settled it first, a superseded run's callback spares its successor, shutdown partitions
the entries, and in any well-behaved run the wait after it ends exactly when the last step about
each execution ended its entry. The classes in `Concurrency` and `ActiveExecutions` do in place what
the step functions say.

**Workflow activation** (`Webhooks`, `WorkflowActivation`, `ActivationQueue`, `ActivationStartup`,
`ActivationCluster`, `ClusterRetries`, `ClusterWebhooks`, `ActivationRaces`,
`ActiveWorkflowManager`). Webhook registration without a transaction, the retry queue with its
timers and backoff, deactivation, the startup pass, and several main instances. The outside world
(failing hooks, triggers, queries) comes in as a parameter of each attempt, so every theorem holds
whatever fails. The class in `ActiveWorkflowManager` does in place what the step functions say.

`Wrappers` and `FirstOccurrences` hold small shared definitions.

## Where the code differs from what it is meant to do

Each of these is proved, with the exact condition where there is one.

- Reversing the array returned by `getParentTypes` reverses the stored one and changes which
  overwrite wins; `OverwriteReversal.ReversalHarmlessIff` says for which types it never does.
- With several parents the two stages of the overwrites disagree (`OverwriteOrder.StagesAgreeIff`).
- Taking a throttled call out of its queue lets the next one through although no slot became free, so
  the concurrency limit can be exceeded (`ExecutionSlots.LimitExceededIff`). Called with the limits on,
  `removeAll` would start every other execution of a queue (`Concurrency.RemovedAllIs`); its one
  caller has switched them off before.
- A waiting run whose entry is dropped or replaced before its promise settles keeps its slot for ever
  (`ExecutionRuns.OrphanedIff`, `ExecutionRuns.OrphanForever`). Four calls lead there, and once there
  are as many such runs as the limit, every later call of the queue waits
  (`ExecutionOrphans.OrphansTakeSlots`, `ExecutionOrphans.OrphanRun`).
- `removeAll` after `disable` does nothing, so shutdown never cancels in storage the ids it collected
  (`ExecutionShutdown.NothingCanceledInStorage`, `ActiveExecutions.ActiveExecutions.Shutdown`).
- An execution that waits when its callback runs keeps its entry until it is stopped or another pass
  is made, so the wait of shutdown goes on if it started to wait after the pass
  (`ExecutionDrain.ParkedUntilStopped`; a run that leads there: `ExecutionDrain.ParkedRun`).
- The comments on `addWebhooks` expect a duplicate key to fail, but rows are upserted: a webhook of
  another workflow under the same key is taken over, and lost if the registration then fails
  (`Webhooks.OthersKeptIff`, `Webhooks.TakenRowsAreLost`).
- When a call after the registration loop or a trigger fails, the registered webhooks stay
  (`Webhooks.AllOrNothingIff`, `WorkflowActivation.LeavesNoRowsIff`), and a failed poller may
  leave the workflow registered in memory (`WorkflowActivation.AddRuns`).
- With several main instances a retry only publishes the activation, so an entry whose timer fired
  stays on the queue without one: it is never retried again unless the workflow is queued anew
  (`ClusterRetries.ClusterRetriedOnceIff`; two calls lead there: `ClusterRetries.RetriedOnceRun`).
- A leader that steps down while an attempt is under way can be left with the workflow in memory as a
  follower (`ActivationCluster.StepDownDuringAttemptIff`).
- A retry does not look at the queue again after its await. Its workflow ends up with two live timers
  exactly when it was queued anew during the await and not taken off the queue again, and the attempt
  then fails; nothing else that happens meanwhile breaks the queue (`ActivationRaces.OverlapBreaksIff`;
  an input: `ActivationRaces.OverlapBreaksRun`). A deactivation does not break it, but it does not last
  either: triggers and webhooks come back (`ActivationRaces.RemovedDuringRetry`).

## Model

| member | source | states |
|---|---|---|
| CredentialGraph.AboveIsAncestor | packages/cli/src/credential-types.ts:26-34 | the recursive ancestor relation used in the proofs is reachability by a path of `extends` links |
| CredentialTypes.VisitGrows | packages/cli/src/credential-types.ts:26-34 | a lookup only appends to stored arrays, and only to those of the type and of types below it |
| CredentialTypes.VisitListsAncestors | packages/cli/src/credential-types.ts:26-34 | whatever earlier lookups left in the arrays, a lookup lists exactly the proper ancestors, and the arrays keep holding only ancestors |
| CredentialTypes.HistorySound | packages/cli/src/credential-types.ts:26-34 | after any history of lookups, reversals included, every stored array holds its declared parents and only ancestors |
| CredentialTypes.LookUpIsExact | packages/cli/src/credential-types.ts:26-34 | after any history, the list returned for a type has exactly the types reachable from it, and every stored array keeps what it held as a prefix |
| CredentialTypes.HistoryKeepsDeclared | packages/cli/src/credential-types.ts:27-31 | after any lookups without reversal, each stored array has its declared list as a prefix |
| CredentialTypes.LookUpOrderIsFixed | packages/cli/src/credential-types.ts:26-34 | after any history without reversals, the first listed ancestor in any set of types is the one the declarations determine |
| CredentialTypes.CredentialTypes.constructor | packages/cli/src/credential-types.ts:8 | the stored arrays start as the declared ones |
| CredentialTypes.CredentialTypes.GetParentTypes | packages/cli/src/credential-types.ts:26-34 | the loop that pushes while iterating the array's first elements leaves the arrays as the recursive specification says, and terminates on every acyclic graph |
| CredentialsOverwrites.LookupIsHistoryIndependent | packages/cli/src/credentials-overwrites.ts:95-102 | on any acyclic graph a lookup gives the same map after any two histories of lookups |
| CredentialsOverwrites.LookupTakesFirst | packages/cli/src/credentials-overwrites.ts:95-102 | each field of a lookup comes from the type itself or else from the first ancestor with a stored value for it |
| CredentialsOverwrites.LookupProvenance | packages/cli/src/credentials-overwrites.ts:29-42 | on any acyclic graph, key order and history, a lookup has exactly the fields configured for the type or an ancestor, each value is one of theirs, and the type's own values win |
| CredentialsOverwrites.FirstProviderIsNearest | packages/cli/src/credentials-overwrites.ts:63-93 | along a single chain the first type with a stored value holds the nearest configured one, although some stored merges stop partway |
| CredentialsOverwrites.LookupIsNearest | packages/cli/src/credentials-overwrites.ts:63-102 | along a single chain, for every configuration, key order and history, a lookup maps each field to its nearest configured value |
| CredentialsOverwrites.UnrecognisedAddNothing | packages/cli/src/credentials-overwrites.ts:69-72 | a type all of whose parents are unrecognised is stored as configured, whatever is configured for them, for every key order |
| CredentialsOverwrites.FilledFromNearest | packages/cli/src/credentials-overwrites.ts:44-61 | applying the overwrites keeps what the user set, fills a blank field with its nearest configured value, and leaves all other fields |
| CredentialsOverwrites.FilledIff | packages/cli/src/credentials-overwrites.ts:52-57 | an overwritten field takes the overwrite exactly if it is missing, null, undefined, the empty string or that value already |
| CredentialsOverwrites.FillingTwice | packages/cli/src/credentials-overwrites.ts:44-61 | applying the overwrites again changes nothing, whatever was looked up in between |
| CredentialsOverwrites.CredentialsOverwrites.constructor | packages/cli/src/credentials-overwrites.ts:16-27 | construction resolves the configured overwrites once |
| CredentialsOverwrites.CredentialsOverwrites.SetData | packages/cli/src/credentials-overwrites.ts:29-42 | the loop over the keys leaves the stored overwrites of the specification, for every key order |
| CredentialsOverwrites.CredentialsOverwrites.GetOverwrites | packages/cli/src/credentials-overwrites.ts:63-93 | the memoised recursion yields the specified result and list of resolved types, without storing the merge |
| CredentialsOverwrites.CredentialsOverwrites.GetFor | packages/cli/src/credentials-overwrites.ts:95-102 | a lookup merges the stored overwrites over the ancestor list, which it makes grow |
| CredentialsOverwrites.CredentialsOverwrites.ApplyOverwrite | packages/cli/src/credentials-overwrites.ts:44-61 | the result is the credential with its blank fields filled from the lookup |
| CredentialsOverwrites.CredentialsOverwrites.FillBlanks | packages/cli/src/credentials-overwrites.ts:51-60 | the loop fills exactly the blank fields that have an overwrite and leaves the rest, in any key order |
| OverwriteReversal.FartherIsLast | packages/cli/src/credential-types.ts:26-34 | whatever the arrays hold, of two ancestors one of which extends the other a lookup lists the farther one last |
| OverwriteReversal.ReversalHarmless | packages/cli/src/services/frontend.service.ts:408-411 | a type that lists all its ancestors itself, each pair with the farther one first, is looked up the same after every history, reversals of any arrays included, on any stored overwrites |
| OverwriteReversal.FlipShows | packages/cli/src/services/frontend.service.ts:408-411 | whenever two histories list two ancestors in different orders, there is a configuration that the lookup then resolves differently |
| OverwriteReversal.ComparableFlips | packages/cli/src/services/frontend.service.ts:408-411 | a type that does not list the farther of two such ancestors first has two ancestors whose order one reversal changes |
| OverwriteReversal.FindFork | packages/cli/src/credential-types.ts:26-34 | two ancestors neither of which extends the other lie above a fork: a type with two nearest parents through which everything on the way passes |
| OverwriteReversal.ForkFlips | packages/cli/src/services/frontend.service.ts:408-411 | at such a fork, unless a parent is listed again after another one, reversing the array of the fork or of the type changes the order of the two parents |
| OverwriteReversal.ReversalHarmlessIff | packages/cli/src/services/frontend.service.ts:408-411 | where no type at or above `t` lists a parent again after another one: no configuration, key order and history with reversals changes a lookup of `t` if and only if of any two ancestors one extends the other and `t` lists the farther one first |
| OverwriteReversal.ReturningParentHarmless | packages/cli/src/services/frontend.service.ts:408-411 | without that hypothesis the equivalence fails: reversals never show for a type that lists `[u, v, u]` where neither extends anything |
| OverwriteReversal.ChainReversalHarmlessIff | packages/cli/src/services/frontend.service.ts:408-411 | along a single chain, every history with reversals gives the nearest value if and only if the type has at most one ancestor |
| OverwriteOrder.LastParentWins | packages/cli/src/credentials-overwrites.ts:81-89 | in the first stage a recognised parent listed last overrides the others, and what they inherit, in every field it configures and the type does not |
| OverwriteOrder.StagesDisagree | packages/cli/src/credentials-overwrites.ts:63-102 | a type that does not inherit along a single chain has a configuration on which the stages disagree, if the last parent at its first fork is recognised and not also the first |
| OverwriteOrder.StagesAgreeIff | packages/cli/src/credentials-overwrites.ts:63-102 | with the same condition on the fork of the type and none on the rest of the graph: the two stages agree on every configuration of the type if and only if it inherits along a single chain |
| Concurrency.RemovedAllIs | packages/cli/src/concurrency/concurrency-control.service.ts:142-151 | with the limits on, emptying a queue of n calls for different executions starts n/2 of them and gives capacity back only for the others; with the limits off nothing changes |
| Concurrency.EmptyingAccounts | packages/cli/src/concurrency/concurrency-control.service.ts:142-151 | whatever waits, each waiting call is dropped against capacity, started, or left |
| Concurrency.RepeatedIdStays | packages/cli/src/concurrency/concurrency-queue.ts:45-59 | emptying leaves the second call of an execution that waits twice around another one |
| Concurrency.RemoveAllIdleIff | packages/cli/src/concurrency/concurrency-control.service.ts:142-151 | emptying the queues changes nothing if and only if the limits are off or nobody waits |
| Concurrency.BlockedModes | packages/cli/src/concurrency/concurrency-control.service.ts:194-211 | webhook and trigger executions wait in one queue, evaluations in another, and no others wait |
| Concurrency.ConcurrencyControl.constructor | packages/cli/src/concurrency/concurrency-control.service.ts:33-72 | for limits without a 0: one queue per positive limit, enabled only in regular mode with such a limit, and no queue otherwise |
| Concurrency.ConcurrencyControl.FromConfig | packages/cli/src/concurrency/concurrency-control.service.ts:43-51 | configuration fails exactly when some limit is 0, and negative limits mean no limit; otherwise one queue per positive limit |
| Concurrency.ConcurrencyControl.Throttle | packages/cli/src/concurrency/concurrency-control.service.ts:113-117 | takes a slot, below zero if need be, and blocks exactly the calls beyond capacity |
| Concurrency.ConcurrencyControl.Release | packages/cli/src/concurrency/concurrency-control.service.ts:122-126 | gives a slot back and lets the longest waiting call through |
| Concurrency.ConcurrencyControl.RemoveFrom | packages/cli/src/concurrency/concurrency-queue.ts:45-55 | takes the first call of an execution out of a queue, gives its capacity back and lets the next call through, or finds none |
| Concurrency.ConcurrencyControl.RemoveOne | packages/cli/src/concurrency/concurrency-queue.ts:45-55 | takes one call out of its queue and lets the next one through |
| Concurrency.ConcurrencyControl.EmptyQueue | packages/cli/src/concurrency/concurrency-control.service.ts:145-151 | the loop over the ids waiting at its start leaves the queue of the specification and all others |
| Concurrency.ConcurrencyControl.RemoveAll | packages/cli/src/concurrency/concurrency-control.service.ts:142-155 | empties every queue and hands the ids over for cancelling if the limits are on, and does neither if they are off |
| Concurrency.ConcurrencyControl.Disable | packages/cli/src/concurrency/concurrency-control.service.ts:162-164 | switches the limits off and leaves the queues |
| ExecutionLifecycle.RunsAreSane | packages/cli/src/active-executions.ts:49-125 | in every interleaving each entry is a record for its id, and every waiting call is an admission not yet granted, in the queue of its mode, once |
| ExecutionSlots.SlotsAreConserved | packages/cli/src/active-executions.ts:74-122 | in every reachable state with limits on, capacity is the limit less waiting calls, admissions between throttle and insertion, and runs whose callback has not run |
| ExecutionSlots.LimitHolds | packages/cli/src/concurrency/concurrency-queue.ts:22-55 | as long as no waiting call is taken out while another waits, no queue runs more executions than its limit |
| ExecutionSlots.BlockedIff | packages/cli/src/concurrency/concurrency-control.service.ts:113-117 | in every reachable state with limits on, a call has to wait exactly when those of its queue that run or wait already make up the limit |
| ExecutionTurns.TurnsAlways | packages/cli/src/concurrency/concurrency-queue.ts:22-68 | in every run each waiting list has exactly the calls that wait for its queue, in the order in which they began |
| ExecutionTurns.FirstComeFirstServed | packages/cli/src/concurrency/concurrency-queue.ts:22-68 | in every run, when a call that waited is let through, no call of its queue that began earlier still waits: each was let through or taken out |
| ExecutionTurns.SettleLetsFirstThrough | packages/cli/src/concurrency/concurrency-control.service.ts:122-126 | the callback of a settled run lets exactly that waiting call of its queue through which began first |
| ExecutionSlots.LimitExceededIff | packages/cli/src/concurrency/concurrency-queue.ts:45-55 | a step takes a queue beyond its limit if and only if it takes a waiting call out while another waits |
| ExecutionSlots.LimitExceededRun | packages/cli/src/concurrency/concurrency-queue.ts:45-55 | a run of four calls that ends with two executions under a limit of one |
| ExecutionRuns.SupersededForever | packages/cli/src/active-executions.ts:95-105 | once a run is not the entry for its id, its status and its promise never change again |
| ExecutionRuns.SupersededRunsWait | packages/cli/src/active-executions.ts:95-122 | in every interleaving whose resumes meet no running entry, a run with a pending callback that is not the entry for its id waits |
| ExecutionRuns.CallbackSparesSuccessor | packages/cli/src/active-executions.ts:113-122 | a settle callback removes the entry of its own run or none |
| ExecutionRuns.EvictionIff | packages/cli/src/active-executions.ts:95-122 | after a resume over an entry, the callback of the replaced run removes the successor's entry if and only if the replaced run was settled, with its callback to come, and did not wait |
| ExecutionRuns.StopEnds | packages/cli/src/active-executions.ts:150-167 | stopping rejects an open response and ends the execution: a waiting one loses its entry at once, any other when the callback of its settled promise runs |
| ExecutionRuns.OrphanForever | packages/cli/src/active-executions.ts:150-175 | a run with an open promise and no entry never settles in any continuation, so its slot is never released |
| ExecutionRuns.OrphanedIff | packages/cli/src/active-executions.ts:95-105 | a run with an open promise loses its entry in exactly the steps that drop or replace a waiting entry |
| ExecutionOrphans.OrphansTakeSlots | packages/cli/src/active-executions.ts:113-167 | for any limits and any set of such runs: all of them hold their slots in every continuation, and once they are as many as the limit, each further call of their queue waits as long as the limits are on |
| ExecutionOrphans.OrphanRun | packages/cli/src/active-executions.ts:150-167 | a run of four calls that reaches such a state: an execution is admitted, starts to wait and is stopped before its promise settles |
| ExecutionRuns.ResumesKeep | packages/cli/src/active-executions.ts:95-105 | through any waits and resumes without removal, an execution keeps its start time, and its response is the one attached last |
| ExecutionRuns.AdmissionKept | packages/cli/src/active-executions.ts:98-105 | the start time kept is that of the first admission, and without an attached response there is none |
| ExecutionOutcomes.RunsEndAsTold | packages/cli/src/active-executions.ts:95-175 | in every run of the program: the promise of a run is resolved exactly if finalizing it while it was the entry settled it first, and rejected exactly if stopping it, or a pass that cancels it, while it did not wait did; its status is the one set last and its workflow run the one attached last |
| ExecutionOutcomes.CanceledIffCut | packages/cli/src/active-executions.ts:150-167 | a workflow run is cancelled exactly if some step stopped an execution that did not wait while it was attached to its current run last |
| ExecutionOutcomes.ResponsesEndAsTold | packages/cli/src/active-executions.ts:137-191 | a response is known from its first attachment to an entry on; it is resolved exactly if answering it, or cleaning up after an execution that does not wait, settled it first, and rejected exactly if a stop of the execution that owes it or a shutdown pass did |
| ExecutionShutdown.ShutdownPartitions | packages/cli/src/active-executions.ts:240-252 | each entry is cancelled, forgotten or left alone, with the exact condition of each, and what remains is the same run, settled unless left alone |
| ExecutionShutdown.CanceledIff | packages/cli/src/active-executions.ts:244-247 | the reported ids are exactly the entries that owe a response, or all of them in regular mode when asked |
| ExecutionShutdown.ShutdownRejects | packages/cli/src/active-executions.ts:244-247 | the pass rejects exactly the open responses that some entry owes |
| ExecutionShutdown.ShutdownAddsNothing | packages/cli/src/active-executions.ts:240-252 | no entry appears during the pass and no callback is lost |
| ExecutionShutdown.NothingCanceledInStorage | packages/cli/src/active-executions.ts:232-254 | after the pass `removeAll` leaves the queues and cancels no id, in every mode and whatever the pass collected |
| ExecutionDrain.CallbacksRemoveEntries | packages/cli/src/active-executions.ts:113-122 | an entry whose callback has run waits, in every state reached without setting another status on such an execution |
| ExecutionDrain.CallbacksRemoveIff | packages/cli/src/active-executions.ts:113-122 | a step breaks that if and only if it sets another status on an execution whose callback has run |
| ExecutionDrain.ShutdownStartsDrainingIff | packages/cli/src/active-executions.ts:240-258 | in every well-behaved run, the pass leaves only runs that do not wait and whose callback is still to come if and only if every execution whose callback has run waited |
| ExecutionDrain.EntryGoesIff | packages/cli/src/active-executions.ts:113-167 | an entry goes in exactly these steps: a stop while it waits, its own callback while it does not, a shutdown pass that meets it waiting |
| ExecutionDrain.EntryLastsIff | packages/cli/src/active-executions.ts:49-258 | over any well-behaved run an execution has an entry if and only if the last step that ended or admitted it admitted it |
| ExecutionDrain.WaitEndsIff | packages/cli/src/active-executions.ts:256-265 | over any well-behaved run, executions that start to wait and resumes included, the map is empty if and only if that holds of no execution |
| ExecutionDrain.CallbacksEndWait | packages/cli/src/active-executions.ts:256-265 | if nothing is admitted or starts to wait, an entry is left exactly as long as its callback is pending, so the map is empty exactly when the last of them ran |
| ExecutionDrain.WaitCanEnd | packages/cli/src/active-executions.ts:256-265 | from every state of the wait there are steps that end it |
| ExecutionDrain.ParkedUntilStopped | packages/cli/src/active-executions.ts:115-118 | an execution that waited when its callback ran, and that is not admitted again, keeps its entry through any calls if and only if none of them stops it and none is another shutdown pass |
| ExecutionDrain.ParkedRun | packages/cli/src/active-executions.ts:232-265 | a run of six calls after whose pass the wait is under way and which ends with such an execution |
| ExecutionDrain.BlockedForever | packages/cli/src/active-executions.ts:233-238 | once the limits are off a throttled call is never let through, whatever runs end |
| ActiveExecutions.ActiveExecutions.constructor | packages/cli/src/active-executions.ts:36-40 | no entries, no callbacks |
| ActiveExecutions.ActiveExecutions.BeginAdd | packages/cli/src/active-executions.ts:49-93 | `add` up to its throttle: throttled unless it is new in queue mode, and told whether it must wait |
| ActiveExecutions.ActiveExecutions.FinishAdd | packages/cli/src/active-executions.ts:95-105 | `add` after its throttle: a fresh record under the id, with start time and response of the entry it replaces |
| ActiveExecutions.ActiveExecutions.OnSettled | packages/cli/src/active-executions.ts:113-122 | the callback releases the slot and forgets the workflow of a waiting run or else the entry under its id |
| ActiveExecutions.ActiveExecutions.AttachWorkflowExecution | packages/cli/src/active-executions.ts:133-135 | changes the entry's record only, or reports the missing entry |
| ActiveExecutions.ActiveExecutions.AttachResponsePromise | packages/cli/src/active-executions.ts:137-142 | changes the entry's record only, or reports the missing entry |
| ActiveExecutions.ActiveExecutions.ResolveResponsePromise | packages/cli/src/active-executions.ts:144-147 | settles the entry's response if it is open |
| ActiveExecutions.ActiveExecutions.ResolveExecutionResponsePromise | packages/cli/src/active-executions.ts:178-191 | settles the entry's response unless the execution waits |
| ActiveExecutions.ActiveExecutions.SetStatus | packages/cli/src/active-executions.ts:223-225 | changes the entry's status only, or reports the missing entry |
| ActiveExecutions.ActiveExecutions.StopExecution | packages/cli/src/active-executions.ts:150-167 | rejects the response, then drops a waiting entry or cancels and settles a running one |
| ActiveExecutions.ActiveExecutions.FinalizeExecution | packages/cli/src/active-executions.ts:170-175 | settles the entry's promise if it is open |
| ActiveExecutions.ActiveExecutions.ShutdownPass | packages/cli/src/active-executions.ts:240-252 | the loop over the entries leaves the state and collects the ids of the specification |
| ActiveExecutions.ActiveExecutions.Shutdown | packages/cli/src/active-executions.ts:232-254 | limits off, pass, `removeAll`: the state and the collected ids of the specification, and no id cancelled in storage |
| Webhooks.RegisterWrites | packages/cli/src/active-workflow-manager.ts:164-225 | the loop writes exactly the keys of the rows stored before it ends or breaks off, each for the workflow |
| Webhooks.LoopStopsAt | packages/cli/src/active-workflow-manager.ts:193-224 | the loop breaks off at the first webhook that fails, not counting query failures at startup, and throws its message |
| Webhooks.RegisterStores | packages/cli/src/active-workflow-manager.ts:164-225 | after the loop a key is the workflow's if some webhook with it was reached and its row stored, and as before otherwise |
| Webhooks.RegisteredWhole | packages/cli/src/active-workflow-manager.ts:151-229 | outside of startup, a registration that returns has every webhook in the table |
| Webhooks.NoRowsLeftIff | packages/cli/src/active-workflow-manager.ts:193-229 | exactly when a registration leaves no row of the workflow |
| Webhooks.AllOrNothingIff | packages/cli/src/active-workflow-manager.ts:151-229 | whatever rows were there and whatever fails: every webhook is stored, or an error is thrown and no row of the workflow is left, if and only if nothing fails, the loop breaks off and its clear gets through, or there was no row before and none was written |
| Webhooks.OthersKeptIff | packages/cli/src/webhooks/webhook.service.ts:110-114 | rows of other workflows are unchanged if and only if no written key is theirs, returned or thrown |
| Webhooks.WritesOwnRows | packages/cli/src/active-workflow-manager.ts:170-192 | a registration never writes a row for another workflow |
| Webhooks.TakenRowsAreLost | packages/cli/src/active-workflow-manager.ts:203-223 | a row taken over is deleted with the others when the registration fails and clears |
| WorkflowActivation.AddSettles | packages/cli/src/active-workflow-manager.ts:522-625 | how an attempt ends depends on the workflow and the outside world alone; success clears entry, timer and error together, failure records its message, nothing else changes |
| WorkflowActivation.AddStarts | packages/cli/src/active-workflow-manager.ts:598-604 | an attempt touches only its own workflow in memory, only on a leader, and hands out callbacks that carry an active workflow in modes that skip inactive ones |
| WorkflowActivation.AddHandsOut | packages/cli/src/active-workflow-manager.ts:598-604 | an attempt hands out trigger callbacks exactly when a leader gets as far as starting triggers, and they carry the mode and the workflow of the attempt |
| WorkflowActivation.AddRuns | packages/cli/src/active-workflow-manager.ts:598-604 | exactly when the workflow is registered in memory after an attempt, failed attempts included |
| WorkflowActivation.DoneRegisters | packages/cli/src/active-workflow-manager.ts:594-596 | a leader's successful activation outside of startup and leadership changes has every webhook in the table |
| WorkflowActivation.PublishedRegisters | packages/cli/src/active-workflow-manager.ts:528-596 | when the leader serves a published activation successfully, every webhook of the stored workflow is in the table |
| WorkflowActivation.StartupRegisters | packages/cli/src/active-workflow-manager.ts:892-899 | at startup, on leader and followers alike, a workflow that counts as started has every webhook in the table whose row could be written |
| WorkflowActivation.RowsStayWhen | packages/cli/src/active-workflow-manager.ts:901-903 | no attempt of a leadership change touches the table, and outside of startup no attempt of a follower does |
| WorkflowActivation.AnnouncedIff | packages/cli/src/active-workflow-manager.ts:537-560 | inactive workflows are skipped at startup and at leadership changes only, and exactly when a success is announced |
| WorkflowActivation.LeavesNoRowsIff | packages/cli/src/active-workflow-manager.ts:592-618 | exactly when an activation attempt, failed or not, leaves no row of the workflow |
| WorkflowActivation.AddOwnRows | packages/cli/src/active-workflow-manager.ts:594-596 | an attempt never adds a row for another workflow |
| ActivationQueue.QueueAlwaysSane | packages/cli/src/active-workflow-manager.ts:701-765 | in every single-main run, each queued workflow has exactly one live timer, each live timer is that of an entry, and no retry is ever skipped as inactive |
| ActivationQueue.FireSettles | packages/cli/src/active-workflow-manager.ts:708-743 | a retry finds its entry, and ends in success without entry or failure with one new timer and a recorded error |
| ActivationQueue.QueuedHasLatestError | packages/cli/src/active-workflow-manager.ts:360-384 | without error-clearing calls, each queued workflow has a recorded error, the message of its latest failed attempt or trigger failure |
| ActivationQueue.TriggerFailureQueues | packages/cli/src/active-workflow-manager.ts:360-384 | a trigger failure queues its workflow anew in the mode its trigger was started in, with the initial delay and exactly one live timer, records its message, and takes the workflow out of memory if its triggers close |
| ActivationQueue.ErrorsAsTold | packages/cli/src/active-workflow-manager.ts:522-625 | in every single-main run, the recorded error of a workflow is the message of its latest failure, unless it was since activated or deactivated or its error cleared |
| ActivationQueue.SuccessClears | packages/cli/src/active-workflow-manager.ts:606-609 | success leaves neither entry nor timer nor error |
| ActivationQueue.RemovedIsDormant | packages/cli/src/active-workflow-manager.ts:783-835 | deactivation leaves neither entry nor timer nor error, even when clearing webhooks fails; in memory exactly what does not close |
| ActivationQueue.RemovedStaysRemoved | packages/cli/src/active-workflow-manager.ts:708-835 | whatever timers fire and whatever happens to other workflows, a removed workflow is not queued, records no error, regains no row, and is in memory exactly as long as its triggers were not closed, unless it is itself activated or one of its triggers fails |
| ActivationQueue.BackoffGrows | packages/cli/src/active-workflow-manager.ts:717-733 | doubling with the cap yields the closed form min(1000 * 2^k, 86400000), which never shrinks |
| ActivationQueue.FullDayIff | packages/cli/src/constants.ts:70-71 | the delay is a day exactly from the 17th failed retry on, and always between a second and a day |
| ActivationQueue.DelayIsBackoff | packages/cli/src/active-workflow-manager.ts:717-754 | in every single-main run, a workflow with k failed retries since it was queued has that delay, and so has its timer |
| ActivationStartup.ChunkPartitions | packages/cli/src/active-workflow-manager.ts:426-428 | the batches hold every id once, in order, none is empty or too long, and all but the last are full |
| ActivationStartup.StartupPartitions | packages/cli/src/active-workflow-manager.ts:415-482 | each workflow of the pass is activated, queued with the initial timeout, given up, or skipped, by its own verdict whatever the others do |
| ActivationStartup.RetriedUnlessUnauthorized | packages/cli/src/active-workflow-manager.ts:452-480 | a workflow whose attempt fails in the pass is queued unless the message of the failure mentions authorization |
| ActivationStartup.OrderIsIrrelevant | packages/cli/src/active-workflow-manager.ts:428-434 | neither batch size nor completion order decides who runs, who is queued and with which error |
| ActivationCluster.LeaderIsExclusive | packages/cli/src/active-workflow-manager.ts:894-914 | over any run of any number of instances with orderly leadership changes between attempts, followers have no workflow registered in memory and no workflow is registered on two |
| ActivationCluster.StepDownDuringAttemptIff | packages/cli/src/active-workflow-manager.ts:537-604 | a leader that steps down during an attempt is left with a workflow registered in memory if and only if the attempt gets that workflow's triggers going, and then with that one only |
| ActivationCluster.EarlyTakeOverIff | packages/cli/src/scaling/multi-main-setup.ee.ts:107-126 | if an instance takes over while another still leads, exactly when a workflow is registered in memory on both |
| ActivationCluster.LeadershipLeavesWebhooks | packages/cli/src/active-workflow-manager.ts:894-904 | a change of leadership never alters the webhook table |
| ClusterRetries.RetriedOnceIff | packages/cli/src/active-workflow-manager.ts:701-755 | in every run of an instance among several that starts with an empty queue: an entry has a live timer if and only if that timer did not fire since the workflow was queued anew last |
| ClusterRetries.ClusterRetriedOnceIff | packages/cli/src/active-workflow-manager.ts:701-755 | the same in every run of any number of instances, with leadership changes of any kind and the passes they start |
| ClusterRetries.RetriedOnceRun | packages/cli/src/active-workflow-manager.ts:528-535 | after a failed activation at startup and one firing of its timer the entry is queued without one, in every continuation that does not queue the workflow anew |
| ClusterWebhooks.RemoveClearsRowsOnly | packages/cli/src/active-workflow-manager.ts:784-801 | with several mains a deactivation deletes exactly the rows of the stored workflow, if clearing gets through, and changes no queue, error or memory of any instance |
| ClusterWebhooks.RemovedHasNoRows | packages/cli/src/active-workflow-manager.ts:784-801 | after it the table has no row of the workflow in any run of any number of instances until one of them activates it |
| ClusterWebhooks.LeadsAsTold | packages/cli/src/scaling/multi-main-setup.ee.ts:60-126 | an instance leads from taking over until stepping down, whatever else happens |
| ActivationRaces.RemovedDuringRetry | packages/cli/src/active-workflow-manager.ts:713-743 | a deactivation during a retry does not last: exactly when the workflow is in memory again, exactly when it has no webhook row, that it is not queued, and that a failure records an error for it unless the workflow has no start node |
| ActivationRaces.NoOverlap | packages/cli/src/active-workflow-manager.ts:708-743 | a retry with nothing in between is the retry as one step |
| ActivationRaces.OverlapSettles | packages/cli/src/active-workflow-manager.ts:708-743 | how a retry ends whatever happens during its await, and what it does to the queue it then finds |
| ActivationRaces.OverlapBreaksIff | packages/cli/src/active-workflow-manager.ts:708-743 | for any run of steps during the await: every queued workflow has one live timer of its own afterwards if and only if it is not so that its workflow was queued anew meanwhile, not taken off again, and the attempt fails; otherwise that workflow has two |
| ActivationRaces.OverlapBreaksRun | packages/cli/src/active-workflow-manager.ts:360-384 | an input on which it happens: a failed poller at startup, and an error of the trigger that answered during the retry |
| ActivationRaces.TakenOffAgain | packages/cli/src/active-workflow-manager.ts:783-835 | whatever happened before, a deactivation as the last step of the overlap leaves the queue intact |
| ActivationRaces.OneStepBreaksIff | packages/cli/src/active-workflow-manager.ts:708-743 | a single step during the await breaks the queue if and only if it queues the workflow itself anew and the attempt fails |
| ActiveWorkflowManager.ActivationErrors.Register | packages/cli/src/activation-errors.service.ts:11-13 | records the message under the workflow, replacing an earlier one |
| ActiveWorkflowManager.ActivationErrors.Deregister | packages/cli/src/activation-errors.service.ts:15-17 | forgets the message of the workflow only |
| ActiveWorkflowManager.ActivationErrors.ClearAll | packages/cli/src/activation-errors.service.ts:33-35 | forgets all messages |
| ActiveWorkflowManager.ActiveWorkflowManager.AddQueuedWorkflowActivation | packages/cli/src/active-workflow-manager.ts:745-754 | replaces an earlier entry together with its timer |
| ActiveWorkflowManager.ActiveWorkflowManager.RemoveQueuedWorkflowActivation | packages/cli/src/active-workflow-manager.ts:760-765 | removes the entry together with its timer |
| ActiveWorkflowManager.ActiveWorkflowManager.RemoveAllQueuedWorkflowActivations | packages/cli/src/active-workflow-manager.ts:770-774 | the loop leaves no entry and no timer of one, in any key order |
| ActiveWorkflowManager.ActiveWorkflowManager.ClearWebhooks | packages/cli/src/active-workflow-manager.ts:235-268 | deletes all rows of a stored workflow once every webhook was deregistered, and none otherwise |
| ActiveWorkflowManager.ActiveWorkflowManager.AddWebhooks | packages/cli/src/active-workflow-manager.ts:151-229 | the loop with its catch leaves the table and throws the error of the specification |
| ActiveWorkflowManager.ActiveWorkflowManager.AddTriggersAndPollers | packages/cli/src/active-workflow-manager.ts:840-885 | what is registered in memory after starting triggers and pollers succeeds or fails |
| ActiveWorkflowManager.ActiveWorkflowManager.Add | packages/cli/src/active-workflow-manager.ts:522-625 | state and outcome of an attempt are those of the specification |
| ActiveWorkflowManager.ActiveWorkflowManager.RetryFunction | packages/cli/src/active-workflow-manager.ts:708-743 | state and outcome of a retry are those of the specification, and it fails on a missing entry exactly when the attempt threw and the entry is gone |
| ActiveWorkflowManager.ActiveWorkflowManager.EmitError | packages/cli/src/active-workflow-manager.ts:360-384 | a trigger failure takes the workflow out of memory, records the message and queues a retry |
| ActiveWorkflowManager.ActiveWorkflowManager.Remove | packages/cli/src/active-workflow-manager.ts:783-835 | state after a deactivation, with one or several main instances |
| ActiveWorkflowManager.ActiveWorkflowManager.ActivateWorkflow | packages/cli/src/active-workflow-manager.ts:439-482 | one workflow of the pass: queued with `init` on failure unless it is about authorization |
| ActiveWorkflowManager.ActiveWorkflowManager.AddActiveWorkflows | packages/cli/src/active-workflow-manager.ts:415-437 | the nested loops over batches attempt every id exactly once, or none when the batch size is 0 |

## Assumptions

- Credentials: the graph is acyclic (a rank decreases along `extends`; on a cycle `getParentTypes`
  does not terminate); `getByName(t).extends` and the known credential's `extends` agree and are
  separate arrays; key enumeration order is arbitrary.
- Executions: repository calls succeed. Theorems that need it say so in their `requires`: a resume
  meets no running entry (`ResumesOnlyWaiting`), `setStatus` does not write `new` (`NeverNew`), and the
  status of an execution whose callback has run stays `waiting` (`StatusWhileRunning`). A run is
  well-behaved if the first two hold of each of its steps.
- Activation: one attempt is one step except in `ActivationRaces` and in
  `ActivationCluster.StepDownDuringAttemptIff`; the calls after the queue was
  cleaned up succeed; a single main instance is the leader.

## Left out

- Directory loaders that share one array between the declared and the known `extends`: there the first stage sees the grown array too.
- References returned to callers, except the in-place reversal, which is an operation of the model; `getOverwrites` may return a stored object, which no caller changes.
- The concurrency queues and the webhook table are values in maps; the queue's events and the reporting of limits are not modelled.
- `executions.mode` other than `regular` and `queue`, and the database writes of `add`.
- Error values of promises: only that they settle, and how.
- CredentialsOverwrites.SetDataResult: the object passed in is also the stored one and is written to in place; the model keeps the original configuration as a value beside it.
- OverwriteOrder.StagesAgreeIff: needs that the first type on the way up with several parents lists a recognised type last that it does not list first; otherwise the two stages may also agree below a fork.
- OverwriteOrder.StagesDisagree: needs the same of that type.
- OverwriteReversal.ReversalHarmlessIff: needs that no type lists a parent again after another one; ReturningParentHarmless is an input for which it fails otherwise. The sufficient half, ReversalHarmless, needs nothing.
- OverwriteReversal.ForkFlips: needs the same of the fork.
- ExecutionDrain.CallbacksRemoveEntries: needs `StatusWhileRunning` of each step; CallbacksRemoveIff says that it fails at exactly the other steps.
- ExecutionDrain.WaitEndsIff: the polling loop itself is represented by its exit condition.
- Concurrency.RemovedAllIs: needs the waiting calls to be for different executions, which no guard of the throttle ensures; EmptyingAccounts and RemoveAllIdleIff do without, and RepeatedIdStays shows what else can happen.
- ActivationRaces.OverlapBreaksIff: overlaps are modelled at the first await of an attempt, not between its parts, and with a single main instance.
- ActivationCluster.LeaderIsExclusive: attempts are atomic; StepDownDuringAttemptIff says when a step-down during one leaves a workflow in memory. Triggers that started before a later one of the same attempt failed are live without being registered, and no step-down closes them.
- ActivationCluster.StepDownDuringAttemptIff: the triggers of all other workflows close in the step-down; those that do not stay with the follower (`ActivationCluster.FollowerRunsIff`).
- WorkflowActivation.AddRuns: when a poller fails, the crons of the pollers before it keep firing although the workflow is no longer registered in memory; the model tracks the registration only.
- ActiveWorkflowManager.ActiveWorkflowManager.AddTriggersAndPollers: the same crons are not tracked.
- ActivationStartup.OrderIsIrrelevant: says nothing about the webhook table, where the last workflow to store a shared key keeps it.
- Dynamic webhook paths, webhook ids and the webhook cache; a row is its method and path and its workflow.
- Triggers started before a later trigger of the same attempt failed: the model does not track them beyond the callbacks they hold.
- `removeAll` of the activation manager, `isActive`, `countTriggers`, `checkIfWorkflowCanBeActivated`, `getActiveExecutions`, `getPostExecutePromise`: single-pass summaries and plain waits.
- Logging, error reporting, error workflows, static data, poll and trigger emission of data.
- Election of the leader and the expiry of its key: taking over and stepping down are events.
