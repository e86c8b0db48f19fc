# Bloomberg MCP gateway: a model with proofs

The gateway stands between many clients and one Bloomberg session. This project models its three stateful cores and
proves what they keep:

* **Subscriptions** (`Cursors` and the modules `Subscription...`). Groups of native feeds, a bounded buffer that is a
  window over an unbounded event log, merged latest values, long-poll waiters, opaque cursors, replacement of a group in
  three phases, cancellation, expiry and restoration.
* **Requests and quotas** (`RequestModel` to `RequestStore`, `RequestAnswers`, `RequestEndings`, `QuotaPolicy`,
  `QuotaAnswers`, `Quota`). Bounded admission, the semaphore and the native lease of each runner, the consume loop,
  one-shot finalization, the replies, eviction, day and month budgets and the sliding rate window.
* **Schemas** (`Descriptors`, the modules `Validation...` and `Validator`, `CanonicalForm`, `RequestBuilder`,
  `BuilderFaults`, `ValidateThenBuild`, `JsonSchema` and the modules `Schema...`). The validator with its shared counter, the builder of native elements, and the JSON Schema emitter that shares types
  through `$defs` and `$ref` (sections 8.2.3.1 and 8.2.4 of JSON Schema Core, draft 2020-12).

## How it is built

Code that awaits is cut at its awaits. `SubscriptionModel` and `RequestModel` have one function for each stretch that runs
without interruption. The classes (`SubscriptionRegistry.Registry`, `Cursors.CursorRegistry`, `RequestExecutor.Executor`,
`RequestStore.RequestRegistry`, `Quota.QuotaEngine`, `Validator.Counters`, `RequestBuilder.NativeRequest`,
`SchemaEmitter.Emitter`) do the same work step by step on fields, with the loops of the source, and each method is proved
equal to its function. `SubscriptionSystem` and `RequestSystem` interleave the stretches in every order, with native events,
failures, lost sessions and other callers in between; an inductive invariant over every reachable state (`Inv`) carries the
main results, which are stated over all runs.

Things the registries keep in several places are measured against a reference they do not keep: the event log of a
generation (`SubscriptionSystem.System.logs`), the set of live native feeds (`live`), every message a runner received
(`RequestSystem.Job.received`), the full history of admissions (`QuotaPolicy`), the schema without sharing
(`SchemaEmission.Inline`), who created each group and what was asked for it (`SubscriptionOrigins.Remembered`), and the
last signal of each token (`SubscriptionSignals.LastSaid`).

Where a law does not hold of the code, the code is modelled as it is. For each such law there is a run from the start, or
an accepted input, on which it fails, and a theorem that says exactly when it does:

* A feed is lost track of exactly by a `subscribe` that raises and leaves feeds alive (with no rollback that removes them),
  or by a restore that comes before the old feeds died (`SubscriptionFeeds.ConservedExactlyWhenClean`); a two-step run
  loses one (`SubscriptionExamples.FeedLost`). Read off the steps: no feed is lost in a run in which nothing is left alive
  and each restore follows a lost session with no accept of the group's feeds in between
  (`SubscriptionSessions.OrderlyRunsConserve`).
* Nothing keeps two replacing operations on one group from overlapping: restores and expiries come from session events and
  the cleanup sweep, without a lock. `SubscriptionSystem` has one at a time per group; `SubscriptionOverlap` has any number,
  and there routing stays sound and terminal groups stay as they are, all along a run, exactly when each operation that
  finishes is benign for its group as it is then: a committing replacement or a failing restore does not find it over, an
  expiry does not find it cancelled, and a cancel or an expiry still holds every token routed to it
  (`SubscriptionOverlapRuns.OverlapExactly`). Read off the steps: an operation is benign if no step on its group disturbs it
  while it is in flight (`SubscriptionUndisturbed.UndisturbedIsBenign`). Buffers, sequences and latest values agree with
  the event log whatever overlaps (`SubscriptionOverlapLogs.OverlappingBuffersAgree`). Five runs break a law: a cancel inside a replacement, inside a restore and inside
  an expiry, and a replacement inside a cancel and inside an expiry (`SubscriptionExamples.CancelInsideReplacement` and the
  four after it); after the last, the next native event turns an EXPIRED group ACTIVE.
* A read parked across a replacement answers under the new generation with a cursor of the old one, which is refused
  (`SubscriptionPaging.SpanningReadIsDetached`, `SubscriptionExamples.ReadSpansReplacement`).
* A group with an active item is ACTIVE or DEGRADED, as all its items are active or some, all along a run exactly unless a
  restore fails after one of its items has started; and conversely ACTIVE and DEGRADED mean that, exactly unless the last
  active item ends and the others are not all failed, for then no rule applies and the group keeps its status
  (`SubscriptionStatus.StatusesFollow`, `SubscriptionExamples.ActiveButFailed`, `SubscriptionExamples.ActiveWithoutItems`).
* The validator drops the name of a SEQUENCE branch of a CHOICE, and decodes temporal and base64 text. Its output is a fixed
  point of strict validation exactly when the input does neither (`CanonicalForm.FixedPointExactly`,
  `CanonicalForm.SequenceBranchLosesItsName`). The builder raises exactly on a composite branch
  (`ValidateThenBuild.BuildsExactly`, `ValidateThenBuild.SequenceBranchIsNotBuilt`). Both, and the next, assume that no
  branch of a choice is called like a child of another. Where one is, the output of that other branch is taken for it: it
  is a fixed point, it is built, and it conforms, all as the wrong branch (`CanonicalForm.NamesakeIsFixed`,
  `ValidateThenBuild.NamesakeIsBuilt`, `SchemaConformance.NamesakeConforms`).
* A repeated CHOICE is advertised as an array and accepted only as an object. Accepted parameters are an instance of the
  advertised document exactly when they reach no repeated choice, take no composite branch and hold no temporal or binary
  leaf (`SchemaConformance.ConformsExactly`, `SchemaConformance.RepeatedChoiceIsNotAList`).
* The waiting caller and later polls are told different errors exactly when, in the run, the release or what follows it
  raised after the result was stored (`RequestTheorems.PollsAgree`, `RequestTheorems.LateCrashHappens`).
* A cancel of a request takes effect exactly unless the start of its runner, the grant of the native request or a partial
  response sets the status anew after it (`RequestEndings.EndingsTellWhy`, `RequestEndings.CancelIsForgotten`).

## Model

| member | source | states |
|---|---|---|
| SubscriptionPaging.ExactlyOnce | src/bloomberg_mcp/registry/subscriptions.py:302-360 | in any run, the pages of reads chained by cursor within one generation are, concatenated, the generation's log from the first offset to the last new offset, in order, each event once and with its rank, minus exactly the positions evicted before the read that passed them |
| SubscriptionPaging.GapMeansEvicted | src/bloomberg_mcp/registry/subscriptions.py:317-337 | `data_gap` is true on exactly the reads for which an event at or past their offset had fallen out of the window over the log |
| SubscriptionPaging.PagesDeliver | src/bloomberg_mcp/registry/subscriptions.py:317-333 | consecutive pages of one log deliver its events between the first and the last position, minus the evicted ranges, and nothing past the last position has been missed |
| SubscriptionPaging.RefusedUnlessCurrent | src/bloomberg_mcp/registry/subscriptions.py:304-308 | a read with a cursor that is not stored, or is of an earlier generation, is refused with CURSOR_INVALID unless an earlier check refuses it |
| SubscriptionPaging.StaleForEver | src/bloomberg_mcp/registry/subscriptions.py:304-308 | once a cursor is of an earlier generation, every read that presents it is refused, in every further run |
| SubscriptionPaging.GoneForEver | src/bloomberg_mcp/registry/cursors.py:72-97 | a handle that was consumed, invalidated, expired or evicted never reads again, in every further run |
| SubscriptionTheorems.StoredCursorsAreWithin | src/bloomberg_mcp/registry/subscriptions.py:333-351 | in every reachable state a stored cursor is of no later generation than its group, and one of the current generation points no further than total_events, even after a long poll that spanned a replacement |
| SubscriptionPaging.ServingConsumes | src/bloomberg_mcp/registry/subscriptions.py:334-343 | a page served after a long poll destroys the cursor that was presented and hands out another one |
| SubscriptionPaging.SpanningReadIsDetached | src/bloomberg_mcp/registry/subscriptions.py:310-343 | the cursor a resumed long poll hands out is accepted, as far as it is presentable, exactly if none of the steps since it parked, in whatever run, replaced or restored the group |
| SubscriptionExamples.ReadSpansReplacement | src/bloomberg_mcp/registry/subscriptions.py:310-343 | a nine-step run from the start ends with a stored cursor that is refused to every reader |
| SubscriptionSteps.GenerationsCount | src/bloomberg_mcp/registry/subscriptions.py:438-572 | over any run the generation of a group grows by exactly the number of its committed replacements and restores |
| SubscriptionTheorems.BufferIsTheEndOfTheLog | src/bloomberg_mcp/registry/subscriptions.py:199-212 | in every reachable state the buffer is the last min(total, max_events) events of the generation's log, total_events is its length, and it equals retained events plus events dropped since the generation began |
| SubscriptionTheorems.ViewsAgreeWithTheLog | src/bloomberg_mcp/registry/subscriptions.py:199-214 | each item's sequence is its number of events, each latest value is the left-to-right merge of its payloads, evicted ones included, and the sequences sum to total_events |
| SubscriptionAnswers.ReadsAreAnswered | src/bloomberg_mcp/registry/subscriptions.py:271-316 | in every reachable state every read of a group is answered as the run says, check by check: who created the group, whether it is over, its generation, the retention asked for at its creation, the cursor and the slots; a latest read gives exactly the items that got an event, each with its payloads merged in order, and the drops that the logs give |
| SubscriptionAnswers.PagesTell | src/bloomberg_mcp/registry/subscriptions.py:317-360 | every page of any run tells the generation and the drops of the logs, holds as many of the retained events as were asked for (1 to 1000), and hands out a cursor of its reader that expires after the cursor lifetime; no other step serves a page |
| SubscriptionAnswers.CursorLives | src/bloomberg_mcp/registry/cursors.py:35-82 | in any further run a cursor that was handed out is accepted exactly while it is stored, by its principal, and before it expires |
| SubscriptionAnswers.MisusedCursorIsDestroyed | src/bloomberg_mcp/registry/cursors.py:72-82 | a cursor presented too late or by another principal is destroyed |
| SubscriptionAnswers.StrangersAreTurnedAway | src/bloomberg_mcp/registry/subscriptions.py:484-491 | in any run a read, a replacement or a cancel is refused with SUBSCRIPTION_NOT_FOUND exactly when the group is not there or the caller is neither an administrator nor the principal whose create drew it; the refused caller changes nothing |
| SubscriptionOrigins.OwnerIsCreator | src/bloomberg_mcp/registry/subscriptions.py:91-131 | the principal of a group is for ever the one whose create made it appear, and no other is |
| SubscriptionOrigins.GroupsOweTheirOrigin | src/bloomberg_mcp/registry/subscriptions.py:97-157 | in every reachable state the buffer bound, the lifetime, the retention mode and the items of a group are those of its history: its create and its last committed replacement, within the caps; it is marked restored exactly when its generation is past the first |
| SubscriptionAnswers.CreatesAreAnswered | src/bloomberg_mcp/registry/subscriptions.py:97-157 | in any run a create is refused by the number of groups its principal created that count, the specs and the mode, in order, each with its code, and otherwise gets an id no group has |
| SubscriptionAnswers.ReplacesAndCancelsAreAnswered | src/bloomberg_mcp/registry/subscriptions.py:386-465 | the same for a replacement and a cancel; a cancel unsubscribes exactly the tokens the items carry |
| SubscriptionAnswers.SweepsTakeTheOverdue | src/bloomberg_mcp/registry/subscriptions.py:517-519 | a sweep takes up a group exactly when it counts and is past the lifetime of its create, if it has no operation in flight |
| SubscriptionAnswers.ExpiredWasOverdue | src/bloomberg_mcp/registry/subscriptions.py:517-530 | a group is EXPIRED only if a sweep of the run found it overdue |
| SubscriptionSignals.ItemStatusIsLastSignal | src/bloomberg_mcp/registry/subscriptions.py:183-197 | in every reachable state the status of an item is the last status signal its token got while it was routed, STARTING before the first; items of a cancelled group are cancelled, of an expired one expired |
| SubscriptionSignals.EventTouchesOneItem | src/bloomberg_mcp/registry/subscriptions.py:169-215 | in every reachable state an event changes at most the one item that carries its token and no other group: data its sequence, a signal its status, as the signal says |
| SubscriptionAnswers.EventsWake | src/bloomberg_mcp/registry/subscriptions.py:251-255 | an event that reaches a group wakes all its readers |
| SubscriptionAnswers.EndsWake | src/bloomberg_mcp/registry/subscriptions.py:476-537 | the end of a cancel wakes them too; the end of an expiry wakes none |
| SubscriptionTheorems.NoLostWakeUp | src/bloomberg_mcp/registry/subscriptions.py:251-255 | every registered waiter has seen every event there is, and the long-poll slots in use are the parked reads |
| SubscriptionTheorems.RoutingIsSound | src/bloomberg_mcp/registry/subscriptions.py:169-181 | with one replacing operation at a time per group, in every reachable state a routing entry of a registered group names an item that carries the token now, in a group neither cancelled nor expired, and the token does not wait to be unsubscribed; with overlap, see SubscriptionOverlapRuns.OverlapExactly |
| SubscriptionTheorems.CarriedTokensRetire | src/bloomberg_mcp/registry/subscriptions.py:438-480 | committing a replacement, cancelling, expiring and restoring retire every token the group carried |
| SubscriptionTheorems.RetirementIsPermanent | src/bloomberg_mcp/registry/subscriptions.py:169-181 | a retired token is never routed again, and a native event that bears it changes no state, in every further run |
| SubscriptionTheorems.TerminalIsAbsorbing | src/bloomberg_mcp/registry/subscriptions.py:460-537 | with one replacing operation at a time per group, a terminal group never leaves the registry, cancelled is for ever, expired can only become cancelled, and neither ever shows another event, generation or drop; with overlap, see SubscriptionOverlapRuns.OverlapExactly |
| SubscriptionOverlapRuns.OverlapExactly | src/bloomberg_mcp/registry/subscriptions.py:374-593 | over any interleaving from the start, operations on one group overlapping as they may, routing stays sound and terminal groups stay registered and as they are, throughout, if and only if every operation that finishes is benign |
| SubscriptionOverlapRuns.MoveExactly | src/bloomberg_mcp/registry/subscriptions.py:374-593 | the same for one move of any kind: both laws survive it exactly if it is not a finish that is not benign |
| SubscriptionOverlap.FinishExactly | src/bloomberg_mcp/registry/subscriptions.py:421-593 | the second stretch of each operation, on whatever the group has become, keeps both laws exactly when it is benign |
| SubscriptionOverlapRuns.BenignRunsAbsorb | src/bloomberg_mcp/registry/subscriptions.py:460-537 | in a run whose finishes are all benign a group that is over at any point is over from then on |
| SubscriptionOverlapRuns.AlwaysReadable | src/bloomberg_mcp/registry/subscriptions.py:199-212 | in every such run a buffer holds no more events than were counted, so reads are never held up |
| SubscriptionOverlapRuns.OneAtATimeIsBenign | src/bloomberg_mcp/registry/subscriptions.py:374-593 | every operation of a reachable state with one operation at a time per group is benign, whenever and however it finishes |
| SubscriptionUndisturbed.UndisturbedIsBenign | src/bloomberg_mcp/registry/subscriptions.py:374-593 | however other groups and reads interleave, an operation is benign when it finishes if since it began no cancel or expiry of its group finished (replacement, restore), or no replacement of it committed and no restore of it began (cancel), and no cancel of it finished either (expiry) |
| SubscriptionUndisturbed.TidyRunsKeep | src/bloomberg_mcp/registry/subscriptions.py:374-593 | so a run in which no operation is disturbed in flight keeps routing sound and terminal groups as they are, throughout |
| SubscriptionOverlapLogs.OverlappingBuffersAgree | src/bloomberg_mcp/registry/subscriptions.py:199-214 | in every overlapping run, benign or not, the buffer is the end of the log of the group's generation, every event is retained or counted as dropped, and sequences and latest values are those of the log |
| SubscriptionExamples.CancelInsideReplacement | src/bloomberg_mcp/registry/subscriptions.py:421-456 | a run from the start in which a commit puts a cancelled group back to STARTING, its new token routed |
| SubscriptionExamples.ReplacementInsideExpiry | src/bloomberg_mcp/registry/subscriptions.py:520-536 | a run from the start in which an expiry leaves the token of a replacement routed to the EXPIRED group, and the next event makes it ACTIVE |
| SubscriptionExamples.ReplacementInsideCancel | src/bloomberg_mcp/registry/subscriptions.py:465-480 | a run from the start in which a cancel leaves the token of a replacement routed to the CANCELLED group |
| SubscriptionExamples.CancelInsideExpiry | src/bloomberg_mcp/registry/subscriptions.py:520-536 | a run from the start in which an expiry turns a CANCELLED group EXPIRED |
| SubscriptionExamples.CancelInsideRestore | src/bloomberg_mcp/registry/subscriptions.py:584-593 | a run from the start in which a failing restore turns a CANCELLED group FAILED |
| SubscriptionFeeds.ConservedExactlyWhenClean | src/bloomberg_mcp/registry/subscriptions.py:158-164 | in any reachable state a step loses track of a live feed exactly when a subscribe that raised left feeds alive, or a restore found old feeds alive |
| SubscriptionFeeds.FeedsAreConserved | src/bloomberg_mcp/registry/subscriptions.py:421-454 | in every state of a run without such steps each live feed is routed, waiting to be unsubscribed, or held by the replacement in flight that asked for it |
| SubscriptionExamples.FeedLost | src/bloomberg_mcp/registry/subscriptions.py:158-164 | a create that is refused after the library took its feed: a live feed nothing in the registry knows of |
| SubscriptionSessions.OrderlyRunsConserve | src/bloomberg_mcp/registry/subscriptions.py:555-593 | a run whose failing subscribes leave nothing alive, and whose restores each follow a lost session with no accept of the group since, is clean in every step and loses track of no live feed |
| SubscriptionSessions.DownIsDead | src/bloomberg_mcp/registry/subscriptions.py:555-593 | in such a run, between a lost session and the next accept of a group's feeds, none of them is live, whatever else happens |
| SubscriptionFeeds.NeverBoth | src/bloomberg_mcp/registry/subscriptions.py:443-446 | no token is routed and waiting to be unsubscribed at once |
| SubscriptionRollback.FailedReplacementLeavesNoTrace | src/bloomberg_mcp/registry/subscriptions.py:386-436 | a run with a replacement that is refused, or that the backend rejects with any part of its feeds left alive, ends in the very state of the run in which the numbers it drew are thrown away instead, whatever events, reads and operations on other groups came in between; only feeds left alive and not rolled back are live beside that; and where nothing else draws numbers, they are all the difference |
| SubscriptionRuns.NextKeeps | src/bloomberg_mcp/registry/subscriptions.py:91-593 | every step of every operation, native event and environment change keeps the whole invariant |
| SubscriptionRuns.RunKeeps | src/bloomberg_mcp/registry/subscriptions.py:91-593 | every run keeps the whole invariant |
| SubscriptionRuns.RunOnward | src/bloomberg_mcp/registry/subscriptions.py:91-593 | over any run generations only grow, terminal groups stay as they are, logs only grow, and retired tokens and destroyed handles stay so |
| SubscriptionLog.DeliverAgrees | src/bloomberg_mcp/registry/subscriptions.py:199-214 | delivering a data event keeps buffer, counters, sequences and latest in agreement with the longer log, and counts a drop exactly when the window was full |
| SubscriptionLog.SequencesSumToTotal | src/bloomberg_mcp/registry/subscriptions.py:199-200 | the item sequences of a group that agrees with its log sum to the length of the log |
| Cursors.EvictionKeepsTheYoungest | src/bloomberg_mcp/registry/cursors.py:56-70 | eviction keeps everything when it fits, and otherwise exactly as many of the youngest unexpired cursors as fit |
| Cursors.GoneForGood | src/bloomberg_mcp/registry/cursors.py:35-97 | a handle that is not stored is not brought back by any operation of the store |
| Cursors.CursorRegistry.Create | src/bloomberg_mcp/registry/cursors.py:35-54 | inserts a fresh cursor and evicts, as the store functions say |
| Cursors.CursorRegistry.EvictIfNeeded | src/bloomberg_mcp/registry/cursors.py:56-70 | the sweep and the oldest-first loop leave what eviction keeps |
| Cursors.CursorRegistry.Resolve | src/bloomberg_mcp/registry/cursors.py:72-82 | answers with the cursor exactly when it is stored, unexpired and presented by its principal, and destroys it otherwise |
| Cursors.CursorRegistry.Consume | src/bloomberg_mcp/registry/cursors.py:84-93 | replaces a cursor by a fresh one of the same subscription, generation and principal at the new offset |
| SubscriptionTheorems.CursorsEndWithTheGeneration | src/bloomberg_mcp/registry/subscriptions.py:455-572 | a committed replacement, cancel, expiry or restore destroys every cursor ever issued for the group, for all further runs, and no other cursor |
| SubscriptionRegistry.Registry.HandleEvent | src/bloomberg_mcp/registry/subscriptions.py:169-215 | routes the event, moves statuses, slides the buffer, merges the latest value and wakes the waiters, exactly as the function the theorems are about |
| SubscriptionRegistry.Registry.CreateUntilSubscribe | src/bloomberg_mcp/registry/subscriptions.py:97-157 | checks, caps and builds the group with its loops, including the routing entries a late refusal leaves behind |
| SubscriptionTheorems.FailedCreateRollsBack | src/bloomberg_mcp/registry/subscriptions.py:157-164 | a create that fails at once puts the registry back as it was, routing and operations included, except for the numbers drawn |
| SubscriptionTheorems.FailedCreateIsGone | src/bloomberg_mcp/registry/subscriptions.py:157-164 | once a create has failed, whatever came in between, its id is never registered again and none of its tokens is ever routed |
| SubscriptionRegistry.Registry.Read | src/bloomberg_mcp/registry/subscriptions.py:271-316 | checks the group, generation and modes in order, resolves the cursor, and serves, refuses or parks |
| SubscriptionRegistry.Registry.ReadResumed | src/bloomberg_mcp/registry/subscriptions.py:314-360 | a woken or timed-out read leaves the waiters, gives its slot back and serves from the state as it is now |
| SubscriptionRegistry.GroupRuntime.Cut | src/bloomberg_mcp/registry/subscriptions.py:317-337 | selects the page, the new offset and the gap flag from the buffer |
| SubscriptionStatus.RecomputeMeans | src/bloomberg_mcp/registry/subscriptions.py:238-249 | the group status in terms of the items: all active, some active, all starting, all failed, and otherwise as before |
| SubscriptionStatus.StatusFollowsItems | src/bloomberg_mcp/registry/subscriptions.py:179-593 | two laws, each kept by a step exactly unless it is the one named: a group with an active item is ACTIVE or DEGRADED, as all or some are (unless a restore fails on a group with an active item); an ACTIVE group has only active items and a DEGRADED one some (unless the last active item ends and the others are not all failed) |
| SubscriptionStatus.StatusesFollow | src/bloomberg_mcp/registry/subscriptions.py:179-593 | either law holds all along a run from the start if and only if no step of it is the one that breaks it |
| SubscriptionExamples.ActiveButFailed | src/bloomberg_mcp/registry/subscriptions.py:584-593 | a run from the start that ends with a FAILED group whose only item is active |
| SubscriptionExamples.ActiveWithoutItems | src/bloomberg_mcp/registry/subscriptions.py:189-197 | a run from the start that ends with an ACTIVE group whose only item is cancelled |
| SubscriptionRegistry.Registry.ResubscribeUntilSubscribe | src/bloomberg_mcp/registry/subscriptions.py:386-418 | checks the group and builds the prospective items without touching it |
| SubscriptionReplace.ProspectiveUnrouted | src/bloomberg_mcp/registry/subscriptions.py:434-435 | the rollback finds no routing of the prospective tokens to pop, in every reachable state |
| SubscriptionRegistry.Registry.ResubscribeSwap | src/bloomberg_mcp/registry/subscriptions.py:438-456 | swaps items, retires old routing to the pending set, starts the next generation empty and invalidates cursors |
| SubscriptionRegistry.Registry.CancelUntilUnsubscribe | src/bloomberg_mcp/registry/subscriptions.py:461-465 | finds the tokens to unsubscribe, or nothing when the group is cancelled already |
| SubscriptionRegistry.Registry.CancelRest | src/bloomberg_mcp/registry/subscriptions.py:468-480 | keeps failed tokens pending, unroutes, marks, invalidates and wakes |
| SubscriptionRegistry.Registry.ExpireRest | src/bloomberg_mcp/registry/subscriptions.py:523-536 | the same for an expired group, which keeps its waiters |
| SubscriptionSteps.RetryPassEmpties | src/bloomberg_mcp/registry/subscriptions.py:539-553 | a pass that retries every pending token with success, interleaved with any other steps, leaves pending at its end at most what those steps added |
| SubscriptionRegistry.Registry.RetryPendingUnsubscribes | src/bloomberg_mcp/registry/subscriptions.py:539-553 | in a pass nothing comes in between: exactly the tokens whose retry failed stay pending, and the count is of successes |
| SubscriptionRegistry.Registry.RestoreUntilSubscribe | src/bloomberg_mcp/registry/subscriptions.py:565-584 | renews tokens, sequences, generation and buffer in place, reroutes and invalidates cursors |
| SubscriptionTheorems.FailedRestoreIsUnrouted | src/bloomberg_mcp/registry/subscriptions.py:587-593 | a restore that fails leaves the group FAILED and otherwise as it was, nothing routed to it, and its new tokens retired |
| RequestTheorems.AdmissionIsBounded | src/bloomberg_mcp/registry/requests.py:118-136 | in every reachable state the registered requests in flight are at most max_concurrent + max_queued, and the leases out at most max_concurrent |
| RequestTheorems.ReleasedExactlyOnce | src/bloomberg_mcp/registry/requests.py:190-199 | a granted lease occurs exactly once among the release calls when no runner holds it, and not at all before |
| RequestTheorems.CompleteIsAbsorbing | src/bloomberg_mcp/registry/requests.py:524-535 | in every further run a complete record stays complete, and a finished request does not change at all |
| RequestTheorems.PollsAgree | src/bloomberg_mcp/registry/requests.py:429-498 | the reply to the waiting caller and every later poll, in any further run, agree on status, error, data, artifact, preview, item errors and warnings, exactly unless a step of the run was a release that raised, or raised after it, with the result stored |
| RequestTheorems.LateCrashRun | src/bloomberg_mcp/registry/requests.py:147-217 | along any run from the start a record looks like such a late failure exactly when one of its own steps in the run was one |
| RequestTheorems.LateCrashHappens | src/bloomberg_mcp/registry/requests.py:147-155 | a run from the start, of one request with one message, whose release raises: the caller is told INTERNAL_ERROR, the polls are not |
| RequestTheorems.CompletedCarriesOne | src/bloomberg_mcp/registry/requests.py:280-425 | a finished COMPLETED record has a final result; one with a final result carries exactly one of inline data and artifact, and no raw messages |
| RequestTheorems.AccountsAreExact | src/bloomberg_mcp/registry/requests.py:219-276 | byte, event and partial counts are those of the messages received; nothing is taken after a response or past the size limit; a COMPLETED record has had its only response as its last message, within the limit, whether or not a result was stored; a final result is made from all messages |
| RequestAnswers.ResultIsAsAsked | src/bloomberg_mcp/registry/requests.py:280-420 | in every reachable state a stored result is as was asked, said of the messages received: it holds every partial and final response once, in order, and nothing else, or the normalizer's table; it is inline exactly within the cap and not as lines; its preview is the first part, up to 0 to 100 entries; its warnings say fallback and artifact; and without normalizer and leave it is an error |
| RequestAnswers.RepliesHoldTheAnswer | src/bloomberg_mcp/registry/requests.py:429-498 | the reply to a poll hands over all of the stored result, or the status and error; messages in any reply are every partial and final response received |
| RequestAnswers.AnswerIsUnique | src/bloomberg_mcp/registry/requests.py:377-387 | there is only one list of messages that holds every partial and final response in order |
| RequestAnswers.ResponseIsFinalized | src/bloomberg_mcp/registry/requests.py:280-420 | the response leaves a result exactly unless the normalizer raises, or an artifact is needed and cannot be stored |
| RequestEndings.EndingsTellWhy | src/bloomberg_mcp/registry/requests.py:167-276 | in every reachable state a request is complete exactly when a step of the run decided its end, with the status and error of the last decision; until then it shows CANCELLING exactly when a cancel was asked for and neither the start of the runner, nor the grant, nor a partial response came after it |
| RequestEndings.CancelIsForgotten | src/bloomberg_mcp/registry/requests.py:170-171 | a run from the start in which a cancel, asked for before the runner starts, is written over by QUEUED |
| RequestSafety.FinalizeFinishes | src/bloomberg_mcp/registry/requests.py:280-420 | finalization either raises and stores nothing, or stores a result of one of the allowed shapes made from the received messages, hands the caller the same parts, and drops the messages |
| RequestSafety.StepKeepsJob | src/bloomberg_mcp/registry/requests.py:167-276 | every stretch of a runner, and a cancel at any of its awaits, keeps what each phase knows of the record |
| RequestSafety.StepFrames | src/bloomberg_mcp/registry/requests.py:167-276 | no stretch takes a record back into flight or out of the complete statuses, and the lease changes only when granted or released |
| RequestSafety.NextKeeps | src/bloomberg_mcp/registry/requests.py:72-535 | every step of the request system keeps its invariant |
| RequestSafety.RunKeeps | src/bloomberg_mcp/registry/requests.py:72-535 | every run keeps it, and the limits |
| RequestExecutor.Executor.Consume | src/bloomberg_mcp/registry/requests.py:219-276 | the loop ends, by what is left of the size limit and then of the deadline, and whatever arrives and whenever it is cancelled its run is a path of the request system to the release |
| RequestExecutor.Executor.Finalize | src/bloomberg_mcp/registry/requests.py:280-420 | the branches over modes, normalizers, inline cap and artifacts leave the record and the outcome that the finalization function says |
| RequestExecutor.Executor.Run | src/bloomberg_mcp/registry/requests.py:167-217 | the whole runner is a path of one job of the request system, with every message, failure and cancel that may come (permits and other jobs are the system's), ends complete, and its two replies agree exactly unless the release, or what follows it, raised on that path with the result stored |
| RequestExecutor.Executor.CancelRequest | src/bloomberg_mcp/registry/requests.py:524-535 | a request that is not complete becomes CANCELLING, and a complete one is left alone |
| RequestAdmission.TryRegisterBounded | src/bloomberg_mcp/registry/requests_registry.py:30-43 | admission is refused exactly when there is no headroom, keeps the bound otherwise, and never drops a running request |
| RequestAdmission.EvictOldestFirst | src/bloomberg_mcp/registry/requests_registry.py:50-66 | the records evicted are the oldest that are not running, as many as there are too many or all there are, and every other record stays |
| RequestAdmission.SweepDropsExpired | src/bloomberg_mcp/registry/requests_registry.py:111-127 | a sweep drops exactly the complete records that have expired, when retention is on |
| RequestStore.RequestRegistry.TryRegister | src/bloomberg_mcp/registry/requests_registry.py:30-43 | counts, inserts and evicts in place; the bound holds afterwards |
| RequestStore.RequestRegistry.EvictLocked | src/bloomberg_mcp/registry/requests_registry.py:50-66 | collecting, sorting and popping leave what eviction keeps |
| RequestStore.RequestRegistry.Unregister | src/bloomberg_mcp/registry/requests_registry.py:45-48 | drops exactly the record with this id |
| RequestStore.RequestRegistry.SweepExpired | src/bloomberg_mcp/registry/requests_registry.py:119-127 | the loop drops exactly the expired complete records |
| QuotaPolicy.AdmissionsWithinPolicy | src/bloomberg_mcp/policy/quota.py:74-106 | over every run of attempts with a clock that does not go back, each admission of a principal is more than 60 seconds after the one 120 before it, and no day or month holds more admissions than its budget |
| QuotaPolicy.RefusedConsumesNothing | src/bloomberg_mcp/policy/quota.py:84-100 | taking a refused attempt out of a run changes no later verdict |
| QuotaAnswers.AnswersExactly | src/bloomberg_mcp/policy/quota.py:74-106 | in any run an attempt is refused for its budget exactly when the day or the month has as many admissions of the principal as allowed, then for its rate exactly when the last 60 seconds have 120, and otherwise admitted |
| Quota.QuotaEngine.AdmitRequest | src/bloomberg_mcp/policy/quota.py:74-114 | the engine, with its cleared counters and trimmed windows, decides what the policy decides on the full history of attempts, and the history stays within budgets and rate |
| Quota.QuotaEngine.Decide | src/bloomberg_mcp/policy/quota.py:82-106 | budgets are checked before the rate, and exactly the admitted requests are recorded |
| Quota.QuotaEngine.RollPeriod | src/bloomberg_mcp/policy/quota.py:62-70 | clearing on a new day or month keeps the counters in agreement with the history |
| Quota.QuotaEngine.TrimWindow | src/bloomberg_mcp/policy/quota.py:95-98 | after popping old times the window is a suffix of the principal's admission times, and its length is the number of admissions in the last 60 seconds |
| Quota.QuotaEngine.Record | src/bloomberg_mcp/policy/quota.py:101-106 | one admission is added to the window and to the three counters |
| CanonicalForm.OutputIsFixedPoint | src/bloomberg_mcp/blp/schema_converter.py:160-414 | the output of any validation is mapped to itself by the strictest validation under the same limits, when the input takes no SEQUENCE branch and reaches no temporal or binary leaf |
| CanonicalForm.FixedPointExactly | src/bloomberg_mcp/blp/schema_converter.py:160-414 | when branch names are not child names, that is exactly when it is |
| CanonicalForm.SequenceBranchLosesItsName | src/bloomberg_mcp/blp/schema_converter.py:341-345 | a schema and an accepted request whose output is refused with INVALID_CHOICE |
| CanonicalForm.NamesakeIsFixed | src/bloomberg_mcp/blp/schema_converter.py:323-346 | names kept apart are needed: a schema and a request that takes a SEQUENCE branch whose output is a fixed point, read as another branch |
| ValidationTheorems.AcceptedIsWithinLimits | src/bloomberg_mcp/blp/schema_converter.py:182-198 | the arrays of an accepted output hold no more than the limit in total, and its objects nest no deeper than the limit allows (two levels more than the limit: the root, and the one-entry object of a choice) |
| ValidationMeaning.AcceptedExactly | src/bloomberg_mcp/blp/schema_converter.py:160-414 | a request is accepted if and only if its values fit the descriptor (types and ranges of leaves, cardinalities, known children each once, required ones given, depth) and it holds no more array items than the limit; the output is the input value for value: leaves as they were, numbers as reals, temporal and binary text decoded, bare values of repeated elements as lists, aliases as names, order and positions kept |
| ValidationMeaning.LookupMeans | src/bloomberg_mcp/blp/schema_converter.py:215-218 | a key stands for the child of that name, or else for the first with that alternate name |
| ValidationFaults.RefusedForThatReason | src/bloomberg_mcp/blp/schema_converter.py:160-414 | the error of a refused request is that of a fault it has, located in its values |
| ValidationTheorems.ObjectCounts | src/bloomberg_mcp/blp/schema_converter.py:187-251 | the shared counter grows by exactly the total length of the arrays in the output |
| ValidationTheorems.ObjectNests | src/bloomberg_mcp/blp/schema_converter.py:201-251 | the depth check bounds the nesting of the output |
| ValidationTheorems.WeakerAccepts | src/bloomberg_mcp/blp/schema_converter.py:201-389 | what stricter flags accept, weaker flags accept with the same output and count |
| ValidationTheorems.OverrideOnlyTightens | src/bloomberg_mcp/blp/schema_converter.py:178-184 | a request accepted under an override is accepted without it, with the same output |
| Validator.CheckObject | src/bloomberg_mcp/blp/schema_converter.py:201-251 | the loop over entries and the required check compute the validation function, and the counter is the function's count |
| Validator.CheckElement | src/bloomberg_mcp/blp/schema_converter.py:254-389 | the same for one element |
| Validator.CheckChoice | src/bloomberg_mcp/blp/schema_converter.py:323-346 | the same for a choice |
| Validator.CheckList | src/bloomberg_mcp/blp/schema_converter.py:273-298 | the same for an array, item by item |
| Validator.CheckParameters | src/bloomberg_mcp/blp/schema_converter.py:160-184 | the same for the whole request, where the override only tightens |
| Validator.BuildKnown | src/bloomberg_mcp/blp/schema_converter.py:215-218 | the dict of accepted keys finds names first and then the first alternate name |
| RequestBuilder.NativeRequest.PopulateRequest | src/bloomberg_mcp/blp/request_builder.py:26-45 | raises exactly the error of the first bad entry, and otherwise a canonical mapping reads back from the element tree, order included |
| RequestBuilder.NativeRequest.FillElement | src/bloomberg_mcp/blp/request_builder.py:48-86 | one element is filled in place, touches nothing else, and a canonical value reads back |
| RequestBuilder.NativeRequest.FillMembers | src/bloomberg_mcp/blp/request_builder.py:89-109 | the same for the members of an element |
| RequestBuilder.NativeRequest.FillItems | src/bloomberg_mcp/blp/request_builder.py:59-68 | the same for appended sub-elements, in order |
| ValidateThenBuild.ValidatedBuilds | src/bloomberg_mcp/blp/request_builder.py:26-109 | population never raises on validated parameters that take no composite branch, whatever the flags |
| ValidateThenBuild.BuildsExactly | src/bloomberg_mcp/blp/request_builder.py:70-81 | when branch names are not child names, population succeeds on validated parameters exactly then |
| BuilderFaults.MembersExactly | src/bloomberg_mcp/blp/request_builder.py:26-109 | population raises exactly when the parameters have a fault, and with the code of one they have |
| ValidateThenBuild.SequenceBranchIsNotBuilt | src/bloomberg_mcp/blp/request_builder.py:70-81 | a schema and an accepted request on whose validated form population raises INVALID_CHOICE |
| ValidateThenBuild.NamesakeIsBuilt | src/bloomberg_mcp/blp/request_builder.py:70-81 | the same request is built, as the other branch |
| ValidateThenBuild.BuildValidated | src/bloomberg_mcp/blp/request_builder.py:26-109 | the request built from validated parameters reads back as the validated mapping, array order included |
| SchemaEmission.EveryRefResolves | src/bloomberg_mcp/blp/schema_converter.py:43-127 | every `$ref` in the root or in any definition has a definition, for any descriptor tree, name clash, cycle of names or depth limit |
| SchemaEmission.SharingKeepsTheMeaning | src/bloomberg_mcp/blp/schema_converter.py:43-127 | when a type name always stands for one structure and the tree fits the depth limit, expanding all references gives exactly what emission without type names gives |
| SchemaEmission.EmitMeans | src/bloomberg_mcp/blp/schema_converter.py:55-85 | under definitions that are sound so far, emission only adds sound definitions and its result expands to the unshared schema |
| SchemaEmission.UnnamedEmits | src/bloomberg_mcp/blp/schema_converter.py:55-123 | emission of the tree without type names gives the inline schema and touches no definition |
| SchemaEmitter.DescriptorToJsonSchema | src/bloomberg_mcp/blp/schema_converter.py:43-127 | the emitter with its two mutable tables gives the specified document, and its references resolve |
| SchemaEmitter.Emitter.EmitOne | src/bloomberg_mcp/blp/schema_converter.py:55-85 | emission updates the definitions as specified and leaves the open type names as they were |
| SchemaEmitter.Emitter.CompositeSchema | src/bloomberg_mcp/blp/schema_converter.py:97-123 | the loops over branches and children build the specified composite schema |
| SchemaConformance.ValidatedConforms | src/bloomberg_mcp/blp/schema_converter.py:43-389 | validated parameters are an instance of the document advertised for the operation, when the input reaches no repeated choice, takes no composite branch and holds no temporal or binary leaf |
| SchemaConformance.ConformsExactly | src/bloomberg_mcp/blp/schema_converter.py:43-389 | when branch names are not child names, that is exactly when they are |
| SchemaPrecision.AdmittedIsAccepted | src/bloomberg_mcp/blp/schema_converter.py:43-127 | conversely, what is an instance of the advertised document is accepted, however strict the rules, if it keeps within what the document does not tell: integer ranges, non-empty characters, text that parses, depth, array items, and no repeated or nested choice |
| SchemaConformance.RepeatedChoiceIsNotAList | src/bloomberg_mcp/blp/schema_converter.py:87-95 | a schema with a repeated choice and a request that is accepted and is no instance of the document emitted for it, while the instance the document asks for is refused |
| SchemaConformance.NamesakeConforms | src/bloomberg_mcp/blp/schema_converter.py:100-109 | the output of the same request conforms, as the other branch |

## Left out

* Backends, event decoding, schema discovery, HTTP, MCP tools and resources, authentication, audit, metrics, usage tracking and logging: foreign objects and plumbing. A backend call is a step that may succeed or raise.
* Random identifiers and hashes: a counter that never repeats. Wall clocks: a parameter of each step; the quota results and the end of the consume loop need it not to run backwards, and a timed-out wait to take its time.
* Task cancellation at shutdown, and fairness of semaphores.
* Reads of, and operations on, a group whose `create` has not returned. The group is registered, and listed, by then, but a
  create that fails drops it while they would go on with the dropped object, which the model does not have. Overlapping
  operations on other groups are in `SubscriptionOverlap`, whose runs have routing, statuses, cursors, pending tokens and
  logs but not pages and live feeds: the results on those are for one operation at a time per group.
* No claim is made that a group becomes ACTIVE.
* `SubscriptionRegistry` keeps a group and its runtime in one class, and its items in a sequence of values: aliasing between the two objects is not modelled. Expiry and restore are modelled group by group.
* List, status and count queries of the registries, the diagnostic for groups stuck in STARTING, and principal checks on requests: short functions of one state.
* The idempotency index of requests (`dedupe_register`, `dedupe_lookup`): easy members; an await between lookup and registration allows two submissions with one client id, so nothing is claimed of it.
* Usage counters and the entitlement breaker that finalization and the loop touch; the extraction of item errors from payloads is a parameter (`Limits.itemErrors`), so is the encoded length of inline data (`Limits.size`). Message sizes are lengths of JSON objects, at least two bytes.
* Normalizers are functions of the messages that may raise. The result store gives a fresh id or raises.
* In normalized output, rows are a list of texts or absent.
* Quota persistence, subscription admission and the authentication windows: I/O or easy members.
* Temporal and base64 decoding is a parameter (`Rules.parse`); floats are reals, so infinities and NaN are not modelled. `hash_operation_schema` and the output encoder of values are left out.
* Error details and messages: only codes. The error of a required child does not say which one.
* Duplicate child names are modelled in lookups and properties; fixed-point and build results assume distinct names (`WellNamed`).
* Native elements are an arena of nodes addressed by handles. Touching an element without setting it is not observable, so that a null member at the top level, which touches its element, reads as absent. Validated parameters hold no null.
* Key order inside emitted JSON is that of insertion; sorted enumerations are multisets and sorted definitions a map.
- SubscriptionTheorems.RoutingIsSound: assumes one replacing operation at a time per group; the exact condition under overlap is SubscriptionOverlapRuns.OverlapExactly.
- SubscriptionTheorems.TerminalIsAbsorbing: assumes the same; the overlap case is the same theorem.
- SubscriptionRegistry.Registry.RetryPendingUnsubscribes: runs the pass without its awaits; the interleaved pass is SubscriptionSteps.RetryPassEmpties.
- CanonicalForm.FixedPointExactly: assumes that branch names are not child names; OutputIsFixedPoint does not, and NamesakeIsFixed shows that the other half needs it.
- ValidateThenBuild.BuildsExactly: assumes the same; ValidatedBuilds does not, and NamesakeIsBuilt shows the need.
- ValidateThenBuild.ValidatedBuilds: composite branches of a choice are shut out because the code raises on them.
- SchemaConformance.ConformsExactly: assumes that branch names are not child names; ValidatedConforms does not, and NamesakeConforms shows the need. Temporal and binary leaves count as not conforming because decoded values are no longer JSON.
- SubscriptionFeeds.FeedsAreConserved: states conservation for runs whose environment steps are clean; the other direction is ConservedExactlyWhenClean, and OrderlyRunsConserve reads cleanness off the steps.
