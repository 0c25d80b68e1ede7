# Verified model of the PaaS mediation client

This project models four parts of the library, in Dafny, and proves what each of them promises.

**The shared watch** (`FanoutSpec`, `FanoutProps`, `FanoutRuns`, `FanoutTheorems`, `Notifier`,
`SharedHandler`, `WatchLoop`). Many clients share one upstream watch. Every new client cancels the
running upstream watch, opens a fresh one and pushes a notifier onto a linked chain; events enter at
the newest notifier and recurse to the older ones, and a BOOKMARK collapses the chain. The chain is
modelled twice: as classes on the heap that pass an event on by pointer and rewrite its type, and as
pure functions on a sequence of nodes. The methods are proved against the functions; the theorems are
about the functions, over every run of the state machine in `FanoutRuns`. The reconnecting loop that
feeds it is a method over an arbitrary script of observations.

**The worker pool** (`Pool`, `PoolInvariant`, `PoolSteps`, `PoolTheorems`, `PoolProgress`,
`Rollout`). Feeders, bounded queue, workers, wait groups and the read/write lock are one step
relation, with any number of concurrent submissions; each channel operation is a step of its own.

**Routes and their policies** (`Durations`, `Timeouts`, `Routes`, `RouteObjects`, `Stores`,
`StoreTheorems`, `StoreRuns`, `RouteClient`). A route is written as an HTTPRoute and a companion
BackendTrafficPolicy, and read back from both. The API server is a table with version-checked
updates in which every call may fail, and in which others may write a policy between our reading and
our writing it.

**Listing and caching** (`Selectors`, `SelectorText`, `SelectorProps`, `Listing`, `ListWatch`,
`ResourceCache`). The paged listing with its retries runs against a server that may answer anything. Its
label selector is a text, joined from the labels without escaping, and read in the whole grammar of
Kubernetes label selectors. The cache fed by watch events runs on a store that may lose any entry and
refuse any other.

Where the code falls short of a property one would expect, the model keeps the code as it is.  Each
bullet names a lemma with a concrete case and one with the exact condition, for all inputs:

- After a failed upstream `Watch`, a client's `StopWatching` dereferences a nil handler exactly when
  nobody else is on the chain (`StopPanicsExactlyAfterFailedWatch`, `FailedWatchRun`). Until a later
  Watch connects, no stream is running, and no client gets anything or is closed
  (`FailedWatchLeavesNoStream`, `FailedWatchSilences`).
- A policy deletion carries no version, so a foreign policy put in its place between the reading and
  the deletion is removed (`DeletionCanHitUnmanaged`, `DeletionHitsUnmanagedIff`); updates and creations
  never do this (`WritingNeverHitsUnmanaged`).
- A write can report success although another policy than the wanted one, or none, is there: for example
  when no call fails, but the policy is removed between the reading and the update
  (`RemovedPolicyGoesUnreported`, `UpdateLosesPolicySilently`).  This happens exactly if the difference
  was found and left, or remains after an attempt whose failure is taken for absence
  (`SilentDifferenceIff`).
- Reading a route back writes into the annotation map of the HTTPRoute it was read from, which is then
  cached (`ReadingChangesAnObject`, `ReadingChangesTheObject`).
- A route that came back changes when it is written again under another default
  (`LaterDefaultChangesTheRoute`); it is a fixed point exactly when it carries a timeout or the default is
  blank at the second writing (`ReadBackIsFixedPoint`).
- The age of a session cookie becomes a duration unchecked (`CookieAgeTooLong`).  It is a valid one
  exactly if the annotation is in a grammar of its own (`CookieTimeoutIsValidIff`); for digits alone that
  means at most five of them (`CookieSecondsAreValidIff`).
- Listing sends its labels to the API server as an unescaped text. With a wildcard the server refuses it
  (`WildcardLabelFilter`); with a comma in a value, or an exclamation mark at the end of a key, it reads
  another selector (`CommaLabelFilter`, `BangLabelFilter`). It reads back what was meant exactly if every
  key and value is in label syntax (`ReadsBackIff`), and exactly then listing and watching accept the
  same objects (`ListAndWatchAgreeIff`); `AgreeInClusterIff` says when they do on objects that a cluster
  can hold.
- A deletion reports nothing about the policy, which can outlive its HTTPRoute (`DeletionLeavesAPolicy`):
  exactly if it was not attempted, or failed (`DeletionLeavesPolicyIff`).
- An addition that is refused over another cached value leaves the stale value
  (`RefusedAdditionLeavesStale`), and nothing else does (`EventKeepsSoundIff`).

## Assumptions

- Each handler step is atomic, and the goroutine of a superseded notifier takes no step after its
  context was cancelled. Without the second the channels are not safe:
  `StaleCleanupWouldCloseALiveClient` shows such a run.
- Non-BOOKMARK events carry a non-empty resource version; an unseen object is recognised by an empty one.
- `Run` does not panic: the recovery of a worker skips `wg.Done`, after which Submit never returns.
- A failed call to the API server has no effect. Calls about HTTPRoutes may fail with any error; in the
  agreement theorems of `StoreRuns` they do not say falsely that an HTTPRoute is absent.
- Nobody else writes the HTTPRoutes that this client writes. A conflict on them is one of the failures
  that any call may have.
- Whoever asked for a watch reads its channel, so that the loop of a watch is never held up in a send; it
  could otherwise hang there, since a send does not watch the context, and never close the channel.
- Reading JSON back gives the value that was written.

## Model

| member | source | states |
|---|---|---|
| Selectors.MatchMeta | service/internal/kubernetes/kubeWatchServiceShared.go:469-476 | the loop accepts exactly the maps that hold every required pair, `*` standing for any value |
| Selectors.ContainsAll | service/internal/kubernetes/adapterForCrud.go:183-190 | the list side's loop decides the same predicate as the watch side's |
| FanoutProps.AgreementReaches | service/internal/kubernetes/kubeWatchServiceShared.go:294-360 | link-wise agreement means: whatever a notifier recorded, every older one recorded at the same version |
| FanoutProps.EveryNotifierRecords | service/internal/kubernetes/kubeWatchServiceShared.go:331-352 | after an event every notifier of the chain records exactly that version of the object |
| FanoutProps.AgreementKept | service/internal/kubernetes/kubeWatchServiceShared.go:294-360 | chain agreement survives every event, whichever sends time out |
| FanoutProps.PreviousIsResolvedByTheOldest | service/internal/kubernetes/kubeWatchServiceShared.go:322-348 | PREVIOUS passed by pointer down a chain of any length is rewritten by the oldest notifier's record, and survives only if all of them skip |
| FanoutProps.VerdictClosedForm | service/internal/kubernetes/kubeWatchServiceShared.go:322-357 | the recursion through shared pointers equals a closed form: what each notifier delivers depends on its own record, its position and the oldest record |
| FanoutProps.RelistCases | service/internal/kubernetes/kubeWatchServiceShared.go:322-357 | for a re-listed object: ADDED everywhere if the oldest does not know it, MODIFIED if at another version, and at this version those that know it skip and the others get ADDED; the newest gets the server's type unless it has the version |
| FanoutTheorems.RelistCasesInEveryRun | service/internal/kubernetes/kubeWatchServiceShared.go:322-357 | those three cases hold in every reachable state of a run whose object events carry versions |
| FanoutProps.WiresAt | service/internal/kubernetes/kubeWatchServiceShared.go:362-393 | one event changes a client's channel by its own notifier's sends and nothing else on the chain |
| FanoutProps.DeliveryWithoutTimeouts | service/internal/kubernetes/kubeWatchServiceShared.go:321-393 | without time-outs a client gets one copy exactly if its filter matches and its notifier had not that version |
| FanoutProps.DeliveryWithTimeouts | service/internal/kubernetes/kubeWatchServiceShared.go:362-393 | with time-outs at most one client per notifier is closed and removed, and nobody gets two copies |
| FanoutTheorems.EventDelivery | service/internal/kubernetes/kubeWatchServiceShared.go:321-393 | one object event in any reachable state, selector by selector and case by case: a client gets it exactly if its notifier had not that version and both selectors fit, under the type that position, generation and the oldest record give |
| FanoutTheorems.EventRecorded | service/internal/kubernetes/kubeWatchServiceShared.go:349-352 | every notifier that had not that version records it under the type it delivered, and no other record changes |
| FanoutTheorems.EventTimeout | service/internal/kubernetes/kubeWatchServiceShared.go:377-385 | a time-out closes and removes one client that was to get the event, and closes nobody else of that notifier |
| FanoutTheorems.BookmarkDelivery | service/internal/kubernetes/kubeWatchServiceShared.go:318-320 | one BOOKMARK reaches exactly the clients that asked for bookmarks, whichever notifier they were on; a time-out closes one of those |
| FanoutProps.ChainStaysWired | service/internal/kubernetes/kubeWatchServiceShared.go:362-393 | after an event every client is owned once and has an open channel |
| FanoutProps.DrainedIsTheUnion | service/internal/kubernetes/kubeWatchServiceShared.go:395-411 | draining collects exactly the clients of the whole chain, as many as the chain counted |
| FanoutProps.BookmarkHandOver | service/internal/kubernetes/kubeWatchServiceShared.go:304-320 | after a BOOKMARK one notifier owns all clients; what it kept on record is what each drained client's old notifier last processed, so a repeat is suppressed for it too |
| FanoutProps.CountIsCardinality | service/internal/kubernetes/kubeWatchServiceShared.go:446-454 | the recursive count is the number of distinct clients on the chain |
| FanoutRuns.WatchKeepsInv | service/internal/kubernetes/kubeWatchServiceShared.go:190-240 | Watch, also with a failing upstream, keeps agreement, ownership and open channels |
| FanoutRuns.EventKeepsInv | service/internal/kubernetes/kubeWatchServiceShared.go:294-360 | so does every object event, with any time-outs |
| FanoutRuns.BookmarkKeepsInv | service/internal/kubernetes/kubeWatchServiceShared.go:304-320 | so does every BOOKMARK |
| FanoutRuns.StopKeepsInv | service/internal/kubernetes/kubeWatchServiceShared.go:242-251 | so does every StopWatching |
| FanoutRuns.EndKeepsInv | service/internal/kubernetes/kubeWatchServiceShared.go:253-292 | so does the end of any stream |
| FanoutTheorems.AgreementInEveryRun | service/internal/kubernetes/kubeWatchServiceShared.go:219-229 | in every reachable state, knowledge only grows toward the older end, at equal versions |
| FanoutTheorems.OneRunningStream | service/internal/kubernetes/kubeWatchServiceShared.go:204-210 | at most the newest notifier's stream is running; all others are cancelled |
| FanoutTheorems.ChannelSafety | service/internal/kubernetes/kubeWatchServiceShared.go:190-251 | over any run a client moves only from live to stopped or to closed, is live in exactly one map, and a closed channel never changes again |
| FanoutTheorems.OnlyWantedEventsArrive | service/internal/kubernetes/kubeWatchServiceShared.go:318-357 | PREVIOUS never reaches a client, and everything on a channel was asked for by its filter |
| FanoutTheorems.OfferedIsLastOffered | service/internal/kubernetes/kubeWatchServiceShared.go:349-357 | the record kept for a client is the version its notifier was last offered while the client was on it, across hand-overs |
| FanoutTheorems.SuppressedOnlyIfRepeated | service/internal/kubernetes/kubeWatchServiceShared.go:331-337 | an event is suppressed for a client only if it repeats the last version offered for that object |
| FanoutTheorems.NothingLost | service/internal/kubernetes/kubeWatchServiceShared.go:294-411 | without time-outs, a live unfiltered client has on its channel the last version offered of every object |
| FanoutTheorems.NothingWantedLost | service/internal/kubernetes/kubeWatchServiceShared.go:294-411 | without time-outs, and if key and version determine an object, every live client has on its channel the last version offered of every object that its filter accepts |
| FanoutTheorems.UpstreamEndClosesEverybody | service/internal/kubernetes/kubeWatchServiceShared.go:427-454 | the end of an unsuperseded stream closes each live client once, touches no other, and the count becomes 0 |
| FanoutTheorems.SupersededEndClosesNobody | service/internal/kubernetes/kubeWatchServiceShared.go:279-289 | the end of a stream that a newer Watch cancelled closes nobody |
| FanoutTheorems.QuietTurns | service/internal/kubernetes/kubeWatchServiceShared.go:264-279 | noticing a cancellation, and an object of another type, change nothing for the clients |
| FanoutTheorems.StopPanicsExactlyAfterFailedWatch | service/internal/kubernetes/kubeWatchServiceShared.go:213-250 | StopWatching meets a nil handler exactly when the last Watch failed and nobody else is on the chain |
| FanoutTheorems.FailedWatchRun | service/internal/kubernetes/kubeWatchServiceShared.go:213-250 | such a run exists |
| FanoutTheorems.FailedWatchLeavesNoStream | service/internal/kubernetes/kubeWatchServiceShared.go:204-217 | after a failed Watch every stream is cancelled |
| FanoutTheorems.FailedWatchSilences | service/internal/kubernetes/kubeWatchServiceShared.go:204-217 | as long as the last Watch has failed no channel changes |
| FanoutTheorems.StaleCleanupWouldCloseALiveClient | service/internal/kubernetes/kubeWatchServiceShared.go:395-411 | a run in which cleaning up the map that a superseded notifier had before the hand-over closes a live client; that it still has it is part of `AcceptBookmark` |
| Notifiers.Notifier.SendToClients | service/internal/kubernetes/kubeWatchServiceShared.go:362-393 | the loop over the client map is a legal round of sends: it stops at the first time-out |
| Notifiers.Notifier.DrainPrevious | service/internal/kubernetes/kubeWatchServiceShared.go:395-411 | the heap recursion returns the specified union, unlinks the older notifiers and leaves their maps as they were |
| Notifiers.Notifier.DeleteClient | service/internal/kubernetes/kubeWatchServiceShared.go:413-425 | the client leaves every map of the chain |
| Notifiers.Notifier.Cleanup | service/internal/kubernetes/kubeWatchServiceShared.go:427-444 | every client of the chain is removed and its channel closed once |
| Notifiers.Notifier.AcceptBookmark | service/internal/kubernetes/kubeWatchServiceShared.go:304-320 | the BOOKMARK branch refines the specified hand-over; without a time-out exactly the clients that asked for bookmarks get it, and the older notifiers keep their maps |
| Notifiers.Notifier.PassToOlder | service/internal/kubernetes/kubeWatchServiceShared.go:322-330 | handing the event on, as PREVIOUS or by the same pointer, does to the older chain and to the event's type what the specification says |
| Notifiers.Notifier.AcceptObjectEvent | service/internal/kubernetes/kubeWatchServiceShared.go:294-360 | the whole heap recursion, with the event's type rewritten in place, refines the pure chain functions |
| Notifiers.Notifier.ClientsCount | service/internal/kubernetes/kubeWatchServiceShared.go:446-454 | returns the count of the whole chain |
| SharedHandlers.SharedNamespaceHandler.Watch | service/internal/kubernetes/kubeWatchServiceShared.go:190-240 | refines the Watch step: with a working upstream a fresh client heads the chain under its own filter, with an empty open channel, and the stream before is cancelled; with a failing one nothing changes for the clients |
| SharedHandlers.SharedNamespaceHandler.Delete | service/internal/kubernetes/kubeWatchServiceShared.go:242-251 | refines the StopWatching step: the client leaves every map, no channel changes, and the handler is stopped exactly if nobody else is there |
| SharedHandlers.SharedNamespaceHandler.Serve | service/internal/kubernetes/kubeWatchServiceShared.go:260-292 | one turn of the server-channel loop is an enabled step of the state machine |
| SharedHandlers.SharedNamespaceHandler.ProcessServerChannel | service/internal/kubernetes/kubeWatchServiceShared.go:260-292 | one step for each thing that the watch loop sent, in order, of its type and about its object, and a last one for the close; channel safety holds throughout, and after the close nobody is left and every client was closed |
| SharedHandlers.StreamReachesClient | service/internal/kubernetes/kubeWatchServiceShared.go:260-292 | without time-outs, the last event about an object on the channel of an unfiltered client that is live throughout has the version of the last one that the stream carried |
| WatchLoops.OnSelect | service/internal/kubernetes/kubeWatchService.go:115-165 | what one observation emits, remembers and leads to, state by state |
| WatchLoops.Loop | service/internal/kubernetes/kubeWatchService.go:80-167 | across any reconnects each observation for the client has its place on the channel, converted and in order, the only other entry is the ERROR of a failed reconnect at the end, and there is one close; each request carries the version at hand |
| WatchLoops.EmittedPlaces | service/internal/kubernetes/kubeWatchService.go:136-163 | every typed event other than ERROR, and every typed bookmark on request, is emitted once, in order and converted, and nothing else is |
| WatchLoops.RequestAt | service/internal/kubernetes/kubeWatchService.go:120-135 | every closed server channel leads to a request for the version at hand, and every ERROR to one for none |
| WatchLoops.LastBookmarkIs | service/internal/kubernetes/kubeWatchService.go:128-149 | the version asked for is that of the last bookmark, or empty after an error or an unsupported bookmark |
| WatchLoops.EmittedInOrder | service/internal/kubernetes/kubeWatchService.go:150-163 | no observation is lost or reordered |
| WatchLoops.EmittedTypes | service/internal/kubernetes/kubeWatchService.go:128-146 | bookmarks only when asked for, and no ERROR is forwarded from the server |
| PoolSteps.StepKeepsInv | exec/pool.go:102-158 | every step of every goroutine keeps conservation, counters, locks and the history of outcomes |
| PoolTheorems.RunKeepsInv | exec/pool.go:79-92 | over every run the invariant holds and there are as many workers as at the start, so no more tasks run at once |
| PoolTheorems.NeverSendOnClosedChannel | exec/pool.go:102-136 | while a feeder has a task left its Submit holds the read lock and the work channel is open |
| PoolTheorems.StoppedRejects | exec/pool.go:107-109 | once stopped, every later submission is rejected for good |
| PoolTheorems.ClosedOnce | exec/pool.go:128-136 | the work channel is closed once, by the first of any number of Stop calls |
| PoolTheorems.AtMostParallelismAtOnce | exec/pool.go:79-92 | no more tasks run at once than there are workers |
| PoolTheorems.StoppedHasNoActive | exec/pool.go:128-136 | Stop takes effect only when no Submit is under way |
| PoolTheorems.TaskInOnePlace | exec/pool.go:115-126 | a fed task is queued, held by one worker or reported: exactly one of them; an unfed one is nowhere |
| PoolTheorems.QueueFits | exec/pool.go:79-80 | the queue never holds more than its buffer size |
| PoolTheorems.ResultChannelNeverBlocks | exec/pool.go:114-124 | a worker with a result can always send it, and a collecting Submit finds all results there |
| PoolTheorems.EachTaskRunsOnce | exec/pool.go:151-153 | no task runs twice |
| PoolTheorems.WaitGroupNeverNegative | exec/pool.go:110-113 | the wait group counts the tasks not yet marked done |
| PoolTheorems.SubmitReturnsOneResultPerTask | exec/pool.go:120-125 | Submit returns one result per task, as a multiset the outcomes of its tasks |
| PoolTheorems.OneWorkerReturnsInTaskOrder | exec/pool.go:144-158 | with one worker the results come in task order, however submissions interleave |
| PoolTheorems.OneWorkerAttemptsInOrder | exec/pool.go:144-158 | with one worker, when a task runs, all earlier tasks of its submission have returned |
| PoolProgress.StepLowersWeight | exec/pool.go:115-126 | every internal step lowers a weighted count of unfed, queued, held and uncollected tasks |
| PoolProgress.SomebodyCanStep | exec/pool.go:79-92 | with one worker or more, some internal step is enabled while anything is left to do, for every buffer size |
| PoolProgress.InternalRunIsBounded | exec/pool.go:144-158 | a run of internal steps is never longer than the weight it starts with |
| PoolProgress.QuiescenceMeansDone | exec/pool.go:102-136 | when nothing can step any more, every Submit returned or was rejected, and no Stop waits |
| PoolProgress.CanComplete | exec/pool.go:102-158 | from every state of the invariant all Submit and Stop calls can be completed |
| Rollouts.GetResults | exec/pool.go:31-37 | one result per task, in order, also of failed tasks |
| Rollouts.GetErrors | exec/pool.go:39-47 | the errors of the failed tasks, in order |
| Rollouts.ErrorPlaces | exec/pool.go:39-47 | each failed task has its place among the errors, in task order, and the errors are theirs alone |
| Rollouts.ErrorsIffFailed | exec/pool.go:49-51 | there are errors exactly when a task failed |
| Rollouts.AnswerOf | service/internal/kubernetes/pod.go:74-84 | an error and no response exactly when a task failed or the pool was stopped |
| Rollouts.RolloutSequentially | service/internal/kubernetes/pod.go:55-85 | over every run of its one-worker pool, sequential rollout attempts every name, in order, and answers in that order |
| Durations.MatcherIsGrammar | entity/route.go:35-40 | a left-to-right matcher accepts exactly the strings that can be spelled as one to four groups of one to five digits and a unit |
| Durations.DecimalRoundTrip | entity/route.go:507-507 | the decimal of a number reads as that number |
| Durations.SecondsFitUpTo99999 | entity/route.go:507-510 | a number of seconds is a valid duration exactly up to 99999 |
| Timeouts.ParseReadsDecimals | entity/route.go:462-477 | a positive 64-bit decimal is read as its value, with a plus or with white space around it |
| Timeouts.ParseIsPositive | entity/route.go:462-477 | a positive timeout is read exactly from trimmed digits, with at most a plus, of a positive 64-bit value |
| Timeouts.TrimSpaceOf | entity/route.go:463-463 | trimming takes away exactly the surrounding white space |
| Timeouts.ResolvedIsInGrammar | entity/route.go:479-516 | for all inputs the result is an error, empty, or in the grammar, and it is empty exactly if all three sources are |
| Timeouts.HigherPriorityHides | entity/route.go:480-496 | the field hides the default, and either hides the annotations |
| Timeouts.FieldDecides | entity/route.go:480-486 | a field is itself the answer, or the error |
| Timeouts.DefaultDecides | entity/route.go:488-494 | without a field so is a default, without the white space around it |
| Timeouts.LargerAnnotationDecides | entity/route.go:496-515 | with neither, the larger of the two annotations' values decides: in seconds up to 99999, an error above, nothing if both are 0 |
| Timeouts.SpaceIsWhiteSpace | entity/route.go:463-463 | what is trimmed is the 25 characters of Unicode white space |
| Timeouts.LegacyTimeout | entity/route.go:498-515 | the legacy answer is the larger value followed by `s`, and an error exactly above 99999 |
| Timeouts.ResolvedIsStable | entity/route.go:480-486 | a resolved timeout in the field resolves to itself under any default |
| Routes.HttpRouteMetadataAnnotations | entity/route.go:361-376 | the loop keeps exactly the annotations without the nginx prefix |
| Routes.PolicyLabels | entity/route.go:330-334 | the loop gives the route's labels with the mark of ownership over any of the same key |
| Routes.PolicyCarries | entity/route.go:301-351 | there is a policy exactly if a timeout or GRPC needs one, and reading it gives exactly that timeout and that protocol |
| Routes.WrittenRule | entity/route.go:378-430 | the one rule of an HTTPRoute: path and match type, backend with port and weight, filters, host |
| Routes.WrittenPersistence | entity/route.go:432-459 | session persistence exactly for cookie affinity, with the name and the age that the annotations give |
| Routes.WrittenMetadata | entity/route.go:276-277 | the metadata is the route's, without exactly the annotations for nginx |
| Routes.FirstRuleIsRead | entity/route.go:526-566 | of any HTTPRoute the first rule is read, with its first backend and match; without one, nothing |
| Routes.PolicyIsRead | entity/route.go:579-589 | of a policy of ours the timeout and the protocol are read, if they have the right types |
| Routes.OthersAreNotRead | entity/route.go:576-578 | of a policy without our label, or with another value of it, nothing is read |
| Routes.GrpcInAnyCase | entity/route.go:308-308 | GRPC is recognised in any case, and nothing else is |
| Routes.ReadBackSpec | entity/route.go:541-564 | field by field: what comes back is what was written, defaults filled, the ingress class lost, the timeout in force |
| Routes.ReadBackMetadata | entity/route.go:567-569 | the metadata comes back, and of the annotations for nginx only GRPC |
| Routes.ReadBackIsNormalised | entity/route.go:273-351 | writing and reading back gives the normal form for every route whose timeout resolves: path, path type, port and timeout filled, nginx annotations gone but for GRPC, the ingress class lost, all else kept |
| Routes.NormalisedTwice | entity/route.go:378-397 | the defaults are filled once |
| Routes.ReadBackIsFixedPoint | entity/route.go:522-590 | a route that came back is a fixed point exactly if it carries a timeout or the second default is blank |
| Routes.SecondWritingChangesNothing | entity/route.go:273-351 | with the same default, the second writing changes neither the route nor its policy |
| Routes.AffinityIsLost | entity/route.go:432-459 | cookie affinity becomes session persistence and does not come back |
| Routes.PolicyTargetsItsHTTPRoute | entity/route.go:277-350 | the policy aims at the HTTPRoute of the same route, by group, kind, name and namespace, and the HTTPRoute hangs on the one gateway |
| Durations.AgeBecomesDuration | entity/route.go:454-457 | a string becomes a valid duration by an `s` behind it exactly if it is at most three groups and then one to five digits with or without an `m` |
| Routes.CookieTimeoutIsValidIff | entity/route.go:444-459 | for every annotation: the HTTPRoute has a session timeout exactly for cookie affinity with an age, and it is valid exactly for an age of that form |
| Routes.CookieSecondsAreValidIff | entity/route.go:454-457 | an age of digits gives a valid timeout exactly up to five of them; without leading zeros, up to 99999 |
| Routes.CookieAgeTooLong | entity/route.go:454-457 | an age that does not |
| Routes.LaterDefaultChangesTheRoute | entity/route.go:489-495 | a route read back while no default was set and changed by a later writing |
| RouteObjects.RouteObject.ApplyManagedBackendTrafficPolicy | entity/route.go:572-590 | the in-place update refines the specification, in the route's own map or in a new one |
| RouteObjects.ReadRoute | entity/route.go:522-570 | the route shares the HTTPRoute's map, and what the HTTPRoute looks like afterwards |
| RouteObjects.ReadingChangesTheObject | entity/route.go:584-588 | when reading leaves the HTTPRoute unchanged, in both directions |
| RouteObjects.ReadingChangesAnObject | entity/route.go:584-588 | a GRPC route whose HTTPRoute is changed by reading |
| RouteObjects.ReadingTwice | entity/route.go:572-590 | reading the changed HTTPRoute again gives the same route |
| StoreTheorems.OtherSlotsStay | service/internal/kubernetes/backend_traffic_policy.go:116-183 | applying and deleting touch no policy of another name |
| StoreTheorems.UnmanagedSurvives | service/internal/kubernetes/backend_traffic_policy.go:140-144 | a policy without our label is neither changed nor removed, whatever fails |
| StoreTheorems.WritingNeverHitsUnmanaged | service/internal/kubernetes/backend_traffic_policy.go:126-157 | not even one that appears between our reading and our writing |
| StoreTheorems.DeletionHitsUnmanagedIff | service/internal/kubernetes/backend_traffic_policy.go:165-182 | a deletion removes a foreign policy exactly if it was put there after our reading |
| StoreTheorems.DeletionCanHitUnmanaged | service/internal/kubernetes/backend_traffic_policy.go:165-182 | such a case |
| StoreTheorems.AppliedIff | service/internal/kubernetes/backend_traffic_policy.go:116-183 | with any faults and interference, the wanted policy is there afterwards exactly if its writing lands or it was there anyway |
| StoreTheorems.SilentDifferenceIff | service/internal/kubernetes/backend_traffic_policy.go:95-183 | with any faults and interference: when a difference between wanted and actual policy goes unreported, in both directions |
| StoreTheorems.RemovedPolicyGoesUnreported | service/internal/kubernetes/backend_traffic_policy.go:146-150 | one such case without any failing call |
| StoreTheorems.UpdateLosesPolicySilently | service/internal/kubernetes/route.go:283-298 | the same through a whole update: success, and no policy |
| StoreTheorems.OnlyOursIsDeleted | service/internal/kubernetes/backend_traffic_policy.go:91-93 | the label with its one value tells what is ours |
| StoreTheorems.AbsenceIsSkipped | service/internal/kubernetes/backend_traffic_policy.go:185-198 | a policy write that fails is skipped for four reasons and reported for any other |
| StoreTheorems.UnreadIsSkipped | service/internal/kubernetes/backend_traffic_policy.go:125-138 | so is a failure to read, where no policy is wanted; where one is, its creation is tried |
| StoreTheorems.FitsIff | service/internal/kubernetes/route.go:687-715 | seven annotations must say nothing, and the protocol nothing but GRPC |
| StoreTheorems.RejectionKinds | service/internal/kubernetes/backend_traffic_policy.go:103-114 | bad annotations are Invalid, a bad timeout is a BadRequest, nothing else is refused |
| StoreTheorems.WrittenUnderItsKey | service/internal/kubernetes/backend_traffic_policy.go:107-108 | HTTPRoute and policy bear the name of the route and the namespace of the call |
| StoreTheorems.CacheAfterDeletion | service/internal/kubernetes/route.go:514-519 | a deletion that went through takes the route out of the cache, and touches nothing else there |
| StoreTheorems.CacheAfterWrite | service/internal/kubernetes/route.go:748-755 | a write is cached exactly if it succeeds and there is a cache, and touches nothing else there |
| StoreTheorems.CreationFailureIsReported | service/internal/kubernetes/route.go:736-740 | a creation reports the failure of its call and changes nothing |
| StoreTheorems.UpdateFailureIsReported | service/internal/kubernetes/route.go:257-281 | so does an update, of reading and of writing |
| StoreTheorems.PolicyFailureIsReported | service/internal/kubernetes/route.go:742-755 | a failure of the policy, and then of the cache, is reported |
| StoreTheorems.RejectedChangesNothing | service/internal/kubernetes/route.go:725-729 | a route that validation refuses changes no store, neither by creation nor by update |
| StoreRuns.StaysInPlace | service/internal/kubernetes/route.go:255-299 | an operation changes both stores under its own name only |
| StoreRuns.UnmanagedSurvivesRun | service/internal/kubernetes/backend_traffic_policy.go:140-173 | over any run with any faults, a policy without our label stays as it is until somebody else touches it |
| StoreRuns.UnmanagedStaysUnmanaged | service/internal/kubernetes/backend_traffic_policy.go:126-157 | over any run of creations and updates that need a policy, with any faults and others writing at any moment, a place that is not ours never becomes ours |
| StoreRuns.PoliciesFollowRoutes | service/internal/kubernetes/backend_traffic_policy.go:103-183 | after any run with an answering policy API, others writing or removing policies at any moment, a policy of ours is the translation of the route last written, whose HTTPRoute is there, and where nobody meddled none is missing that is needed |
| StoreRuns.ReadsBackNormalisedIff | service/internal/kubernetes/route.go:377-383 | after any such run, reading gives the normal form of the route last written, exactly if its policy is there and ours or none is needed |
| StoreRuns.WriteHeals | service/internal/kubernetes/backend_traffic_policy.go:116-157 | whatever earlier failures left behind, a write that reaches a working policy API puts HTTPRoute and policy right |
| StoreRuns.DeletionHeals | service/internal/kubernetes/route.go:508-524 | so does a deletion, also if the HTTPRoute is gone already; any other error leaves all stores as they were |
| StoreRuns.DeletionLeavesPolicyIff | service/internal/kubernetes/route.go:514-523 | with any faults and interference: when a policy of ours outlives its HTTPRoute without a word |
| StoreRuns.DeletionLeavesAPolicy | service/internal/kubernetes/route.go:520-523 | such a case |
| StoreRuns.PolicyIsNeeded | entity/route.go:306-310 | without its policy a route comes back in normal form exactly if it needs none |
| StoreRuns.CalmWrites | service/internal/kubernetes/route.go:255-267 | when nothing fails, an update succeeds exactly for a writable route, which to be created must carry no resource version and to be updated no uid of another object, and a creation only if the name is free |
| StoreRuns.WriteAnswersNormalForm | service/internal/kubernetes/route.go:736-757 | the answer to a write is the normal form of the route |
| StoreRuns.CachedReadsAsAnswered | service/internal/kubernetes/route.go:748-755 | the cached HTTPRoute differs from the written one in annotations at most, and reads as the answer |
| RouteClients.ValidateAnnotationsForGatewayAPI | service/internal/kubernetes/route.go:687-723 | the offending annotations exactly, and none exactly if the route fits |
| RouteClients.Kubernetes.BackendTrafficPolicyFromRoute | service/internal/kubernetes/backend_traffic_policy.go:103-114 | refines the specification: refused annotations are Invalid, an unresolvable timeout is BadRequest |
| RouteClients.Kubernetes.DeleteBackendTrafficPolicy | service/internal/kubernetes/backend_traffic_policy.go:159-183 | refines the specification, with faults and interference; a policy that is not ours stays |
| RouteClients.Kubernetes.ApplyBackendTrafficPolicy | service/internal/kubernetes/backend_traffic_policy.go:116-157 | refines the specification, with faults and interference; a policy that is not ours stays, and with a working API the wanted one is there otherwise |
| RouteClients.Kubernetes.CreateHTTPRoute | service/internal/kubernetes/route.go:725-758 | refines the specification on all three stores; a refused route changes none, and the answer is the normal form |
| RouteClients.Kubernetes.UpsertHTTPRoute | service/internal/kubernetes/route.go:255-299 | refines the specification on all three stores; a refused route changes none, and the answer is the normal form |
| RouteClients.Kubernetes.DeleteRouteHTTPRoute | service/internal/kubernetes/route.go:508-524 | refines the specification: the policy goes too, also if the HTTPRoute was gone, its errors are not reported, and the cache entry goes exactly if the deletion went through |
| Listings.FilterBy | service/internal/kubernetes/adapterForCrud.go:170-181 | the loop gives exactly the selected resources in order |
| Listings.ChosenOfConcatenation | service/internal/kubernetes/adapterForCrud.go:84-93 | filtering page by page is filtering the whole |
| Listings.ChosenCounts | service/internal/kubernetes/adapterForCrud.go:170-181 | every selected resource occurs as often as before, and no other |
| Listings.ListLimited | service/internal/kubernetes/adapterForCrud.go:75-104 | one attempt: which calls it makes with which tokens, and that its last answer decides |
| Listings.ListWrapper | service/internal/kubernetes/adapterForCrud.go:43-73 | at most three attempts, the first request of each without a token |
| Listings.OneAttemptAnswers | service/internal/kubernetes/adapterForCrud.go:54-68 | one attempt gives the answer, all before it ended in 410 Gone, and it did so itself only if it was the last |
| Listings.ListingIsFilterOfPages | service/internal/kubernetes/adapterForCrud.go:75-104 | a successful listing is the selector applied to all pages of that attempt, in server order |
| LabelSelectors.SelectorOf | service/internal/kubernetes/adapterForCrud.go:50-53 | the text is the pairs of the labels, joined in some order |
| LabelSelectorProps.LexOfRendered | service/internal/kubernetes/adapterForCrud.go:50-53 | of labels in label syntax, wildcards allowed, the server's scanner finds the pairs as they were joined |
| LabelSelectorProps.ReadsBackIff | service/internal/kubernetes/adapterForCrud.go:50-53 | the server reads back what was meant exactly if every key and value is in label syntax |
| LabelSelectorProps.MeantIsEquality | service/internal/kubernetes/adapterForCrud.go:86-87 | what is meant selects exactly the objects with those labels |
| LabelSelectorProps.ReadsAsAnotherIff | service/internal/kubernetes/adapterForCrud.go:50-53 | the text reads as another selector exactly if it is not refused although some key or value is not in label syntax |
| LabelSelectorProps.WildcardIsRefused | service/internal/kubernetes/adapterForCrud.go:50-53 | with a wildcard as a value, and else label syntax, the text is refused |
| LabelSelectorProps.CommaSplitsTheValue | service/internal/kubernetes/adapterForCrud.go:50-53 | for all words: what stands behind a comma in a value becomes a key that has to be there |
| LabelSelectorProps.BangNegates | service/internal/kubernetes/adapterForCrud.go:50-53 | for all words: an exclamation mark at the end of a key makes it an inequality |
| ListWatch.ListAndWatchAgreeIff | service/internal/kubernetes/kubeWatchServiceShared.go:465-476 | list and watch accept the same objects exactly if every label key and value of the filter is in label syntax |
| ListWatch.AgreeInClusterIff | service/internal/kubernetes/kubeWatchServiceShared.go:465-476 | on objects with labels in label syntax they also agree where the watch can find nothing and the text is refused or finds nothing, and nowhere else |
| ListWatch.WildcardLabelFilter | service/internal/kubernetes/adapterForCrud.go:50-53 | a wildcard filter whose text is refused, with an object that is watched |
| ListWatch.CommaLabelFilter | service/internal/kubernetes/adapterForCrud.go:50-53 | a filter with a comma, and an object that is listed and not watched |
| ListWatch.BangLabelFilter | service/internal/kubernetes/adapterForCrud.go:50-53 | the same for an exclamation mark |
| ResourceCaches.KeysDoNotCollide | service/internal/cache/cache.go:147-161 | objects whose kinds and namespaces have no slash never share a key |
| ResourceCaches.SlashCollides | service/internal/cache/cache.go:159-161 | a slash anywhere is enough for another object with the same key |
| ResourceCaches.ResourceCache.Set | service/internal/cache/cache.go:197-214 | a refused entry changes nothing; an accepted one leaves the key absent or new, and all other keys alone |
| ResourceCaches.ResourceCache.OnWatchEvent | service/internal/kubernetes/adapterForCache.go:151-174 | an addition or modification that is taken and kept is found, a modification that is not and a deletion leave nothing, other types and other keys are untouched |
| ResourceCaches.EventKeepsSoundIff | service/internal/kubernetes/adapterForCache.go:151-174 | an event keeps every lookup empty or current exactly if it is no addition refused over another cached value |
| ResourceCaches.ModificationRepairs | service/internal/kubernetes/adapterForCache.go:160-173 | a modification or deletion makes its object's lookup current, whatever was cached |
| ResourceCaches.RunKeepsSound | service/internal/kubernetes/adapterForCache.go:127-174 | over any sequence of events and losses without such an addition, every lookup is empty or current |
| ResourceCaches.ResourceCache.Watchloop | service/internal/kubernetes/adapterForCache.go:127-149 | the loop over received events refines the specified effects, and leaves an initially empty cache sound unless such an addition occurs |
| ResourceCaches.RefusedAdditionLeavesStale | service/internal/cache/cache.go:203-209 | a second, too large addition leaves the first value |

## Left out

- Client ids are numbers here; the source formats the same counter with six digits.
- The map of namespace handlers and the goroutine that turns a cancelled client context into StopWatching: one branch each.
- A superseded notifier's goroutine that is still inside a handler step when the next Watch returns: excluded, as said under Assumptions.
- Real time: client time-outs and the wait before a reconnect are choices that may go either way.
- WatchLoops.Loop: a nil watcher after a reconnect without error is not modelled; a failed type assertion on a bookmark is, as a state of the loop.
- Task panics in the pool, and `GetAsError`, which joins error texts.
- The difference between a nil map and an empty one is kept only where it shows, in `RouteObjects`.
- Json: what cannot be built from strings, booleans, lists and objects, since policies contain nothing else.
- The ingress leg of the route operations (`configureIngress`, its two API versions, the result formatting of dual mode): it touches neither gateway store.
- The order and the wording of validation errors, which the source takes from a map in any order.
- Fields that the API server owns (uid, generation): they are blank in what it stores, and the resource version is a number beside the object.
- PoliciesFollowRoutes: two operations of this client on one name do not overlap; others may act between our reading and our writing of a policy.
- The order in which the client's library sorts the pairs of a selector: the results hold for every order.
- The reconnecting of the cache adapter's loop: it watches again without a filter and goes on.
- The other users of the list and get wrappers, and reading from the cache while the API server fails: one branch, no new state.
- The internals of the cache store, of JSON, of the Kubernetes, Gateway, OpenShift and certificate clients, and of Consul.
- Conversions of the other entities: copies of fields.
