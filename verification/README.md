# Verified models of the concurrency, caching and logging components

A Dafny model of the components of VillagePlay whose behaviour is a state machine: ReactiveCocoa's
signals, sequences, subjects, disposables and virtual-time scheduler, AFNetworking's image
downloader and image cache, and CocoaLumberjack's logging queue, file retention and level
conversion. The model follows the implementation files; the headers are taken as what is promised.
Where the two agree, the promise is proved over all inputs, runs and interleavings. Where they do
not, the code is kept as it is, a concrete run shows the difference, and the exact condition under
which the promise holds is proved.

`dafny verify dfyconfig.toml` checks everything.

## How it is organised

| module | what it models |
|---|---|
| `RacEvents` | events, the subscription grammar, subscribers |
| `SignalBind`, `SwitchToLatest`, `Flatten`, `FlattenConcat`, `SignalZip`, `Materialize` | operators that keep subscription state |
| `Sequences`, `Associativity`, `StreamOperators` | the lazy sequence `bind:`, its laws and the pure operators on it |
| `ReplaySubject`, `Multicast` | subjects with nested sends, connections with racing threads |
| `Disposables` | shared and nested disposables with racing threads |
| `TestScheduler` | stepping through scheduled blocks |
| `ImageDownloader`, `DownloadAnswers`, `ImageCache` | merged downloads, who is answered what, and the purging cache |
| `LoggingQueue`, `LogFiles`, `LogLevels` | logger nodes and queues, rolling and clean-up, flags and levels |
| `Lists`, `Sums`, `Words`, `Options` | sequence facts, sums over sequences, 64-bit arithmetic, optional values |

A component that threads share is a state value and a function or relation for each atomic section
of its code; a run is any sequence of sections. The objects that the code updates in place are
classes whose methods are proved to be those sections. History that the code does not keep (who was
called, what was sent) is part of the state where a property speaks about it.

## Where the code does not do what is documented

- `bind:` and so `flattenMap:` on signals: `removeObject:` drops every entry for a signal, so
  returning one signal object twice completes too early. A source that is stopped while it is being
  subscribed to is not disposed of before that call returns, so it can send on (`SignalBind`).
- `flatten:`: the successor of a finished signal is subscribed to outside the lock. An arrival in
  between exceeds the bound, or with one slot can overtake; completions in between complete too early
  (`Flatten`, `FlattenConcat`).
- `switchToLatest`: the subject notifies the new subscription before the old one's trigger, so that
  a replaced signal's value or error can get through, and completion can wait for the trigger
  (`SwitchToLatest`).
- Sequence `bind:`: an answer at which the bind ends gives only its first value (`Sequences`), and so
  `flattenMap:` is not associative on all sequences (`Associativity`).
- `RACReplaySubject`: a value is buffered before it is delivered and trimmed after, so a subscriber
  joining in between is replayed one more than the capacity (`ReplaySubject`).
- `autoconnect`: late subscribers are not disposed of (`Multicast`).
- `step:`: a disposed action uses up a tick (`TestScheduler`).
- The image cache purges when the capacity is exceeded, not when it is reached, and a preferred
  usage above the usage makes the subtraction wrap around (`ImageCache`).
- The image downloader: a download cancelled while pending still gives back a slot when it
  completes, so more than the maximum can run; and a new download can start ahead of queued ones
  (`ImageDownloader`).
- `addLogger:withLevel:` twice with different levels delivers what meets both twice and is undone by
  two removals (`LoggingQueue`).
- `maximumNumberOfLogFiles` counts the active file; and a new file that is not listed first, because
  another has the same or a later date, can be deleted by its own creation (`LogFiles`).

## Model

| member | source | states |
|---|---|---|
| `RacEvents.ForwardsExactlyUntilClosed` | VillagePlay/Pods/ReactiveCocoa/ReactiveCocoa/RACPassthroughSubscriber.m:67-95 | over every run of sends and disposals a subscriber receives exactly the events up to the first terminal one or the first disposal, and they obey `next* (error or completed)?` |
| `RacEvents.ClosedReceivesNothing` | VillagePlay/Pods/ReactiveCocoa/ReactiveCocoa/RACSubscriber.m:67-94 | once disposed of, a subscriber receives nothing in any run |
| `RacEvents.PassthroughSubscriber.SendNext` | VillagePlay/Pods/ReactiveCocoa/ReactiveCocoa/RACPassthroughSubscriber.m:67-75 | the object's step is the specified one: nothing when disposed, one `next` otherwise |
| `SignalBind.UnaliasedRunKeepsPromise` | VillagePlay/Pods/ReactiveCocoa/ReactiveCocoa/RACSignal.m:92-183 | every run in which no two open subscriptions are to the same signal object, and no source stopped from inside the call that subscribes to it sends on, completes exactly when the source and every returned signal have, as documented |
| `SignalBind.StopTakesEffectIff` | VillagePlay/Pods/ReactiveCocoa/ReactiveCocoa/RACSignal.m:153-181 | over every run without two subscriptions to one object, `stop` ends the source as documented at every point if and only if no source that is stopped before the call that subscribes to it has returned sends, before it returns and while an inner signal is open, an error or a value for which the block returns a signal |
| `SignalBind.SendsOnAfterStop` | VillagePlay/Pods/ReactiveCocoa/ReactiveCocoa/RACSignal.m:157-180 | a concrete run: the block stops at the first value, is called for the second all the same, and what it returns is subscribed to and forwarded |
| `SignalBind.KeepsPromiseIffUnaliased` | VillagePlay/Pods/ReactiveCocoa/ReactiveCocoa/RACSignal.m:108-180 | after a run that keeps to both takes one more step, bind's output is the documented one however what is open goes on if and only if the step did not subscribe twice to one object and is no such late value or error |
| `SignalBind.AliasingBreaksPromise` | VillagePlay/Pods/ReactiveCocoa/ReactiveCocoa/RACSignal.m:114-126 | from every state of every run in which two open subscriptions are to one object, whatever the array still holds, there is an order of endings that sends `completed` while a subscription is open, which the documented rule never does |
| `SignalBind.SameSignalTwiceLosesValues` | VillagePlay/Pods/ReactiveCocoa/ReactiveCocoa/RACSignal.m:114-126 | the concrete run: one signal returned for two values, the second subscription's value is lost |
| `SignalBind.UnaliasedStep` | VillagePlay/Pods/ReactiveCocoa/ReactiveCocoa/RACSignal.m:131-156 | one step from an unaliased state is the documented step and keeps the array in step with the open subscriptions |
| `SignalBind.BindSubscription.Complete` | VillagePlay/Pods/ReactiveCocoa/ReactiveCocoa/RACSignal.m:114-126 | the object's completion test drops every entry identical to the finished signal and completes if none is left |
| `SignalBind.BindSubscription.InnerCompletes` | VillagePlay/Pods/ReactiveCocoa/ReactiveCocoa/RACSignal.m:131-156 | the object's step for a finished inner signal is the machine's |
| `SignalBind.NothingAfterClosing` | VillagePlay/Pods/ReactiveCocoa/ReactiveCocoa/RACSignal.m:108-129 | in every run, once its subscriber is closed, bind has no subscription open and nothing further that the source or the returned signals do changes anything |
| `SwitchToLatest.SwitchesToLatest` | VillagePlay/Pods/ReactiveCocoa/ReactiveCocoa/RACSignal+Operations.m:784-804 | publish, flattenMap and takeUntil composed as in the code send, over every run, what the documented rule sends: events of the latest signal only, completion when the receiver and its last signal are done; at most one inner subscription is open |
| `SwitchToLatest.CutKeepsNewest` | VillagePlay/Pods/ReactiveCocoa/ReactiveCocoa/RACSignal+Operations.m:723-754 | when the subject has notified everyone, exactly the newest inner subscription is left and nothing was sent on the way |
| `SwitchToLatest.NotificationEnds` | VillagePlay/Pods/ReactiveCocoa/ReactiveCocoa/RACSubject.m:78-95 | a notification taken one subscriber at a time leaves, when it is over, the newest subscription only |
| `SwitchToLatest.NestedNotificationCuts` | VillagePlay/Pods/ReactiveCocoa/ReactiveCocoa/RACSubject.m:78-95 | and one nested in it does so by itself, before the outer one goes on |
| `SwitchToLatest.StaleEventIffCutting` | VillagePlay/Pods/ReactiveCocoa/ReactiveCocoa/RACSubject.m:78-95 | in every run with the notification taken one subscriber at a time, and nested ones, a value or an error of a replaced signal gets through if and only if its subscription is open and its own trigger has still to fire |
| `SwitchToLatest.DocumentedThroughoutIff` | VillagePlay/Pods/ReactiveCocoa/ReactiveCocoa/RACSignal+Operations.h:450-458 | over every such run the output is the documented one at every point, but for a completion still held up by the notification, if and only if no replaced signal gets a value or an error through |
| `SwitchToLatest.CompletesLateIff` | VillagePlay/Pods/ReactiveCocoa/ReactiveCocoa/RACSignal+Operations.h:450-458 | with nothing stale the output is the documented one if and only if it is not so that the receiver and the latest signal are done while a replaced one is still to be cut; then only `completed` is missing, and not beyond the notification |
| `SwitchToLatest.DocumentedExactlyIff` | VillagePlay/Pods/ReactiveCocoa/ReactiveCocoa/RACSignal+Operations.h:450-458 | so over every such run the output is exactly the documented one at every point if and only if nothing stale gets through and that never is so |
| `SwitchToLatest.CompletionWaits` | VillagePlay/Pods/ReactiveCocoa/ReactiveCocoa/RACSignal+Operations.m:784-804 | the concrete run: receiver and latest signal complete inside the notification, and nothing is sent where `completed` is documented |
| `SwitchToLatest.StaleValueForwarded` | VillagePlay/Pods/ReactiveCocoa/ReactiveCocoa/RACSignal+Operations.m:784-804 | and it can: the concrete run in which signal 0 sends after signal 1 has been received |
| `SwitchToLatest.StaleErrorForwarded` | VillagePlay/Pods/ReactiveCocoa/ReactiveCocoa/RACSignal+Operations.m:784-804 | and the one in which an error of signal 0 then closes everything |
| `Flatten.EveryRunFromStart` | VillagePlay/Pods/ReactiveCocoa/ReactiveCocoa/RACSignal+Operations.m:486-597 | in every interleaving of the locked sections each signal received is in exactly one of queued, starting, active and completed, and signals wait only while all slots are taken |
| `Flatten.MergesEachSignal` | VillagePlay/Pods/ReactiveCocoa/ReactiveCocoa/RACSignal+Operations.m:517-535 | in every run the output is a merge: the values it carries of each signal are the ones that the run's steps have the signal send while subscribed to and listened to, in order |
| `Flatten.FailureEndsOutput` | VillagePlay/Pods/ReactiveCocoa/ReactiveCocoa/RACSignal+Operations.m:517-597 | in every run an error of the receiver or of a signal subscribed to is sent at once, and nothing after it |
| `Flatten.BoundBrokenIff` | VillagePlay/Pods/ReactiveCocoa/ReactiveCocoa/RACSignal+Operations.m:532-582 | with a receiver that sends one event at a time, a section leaves more than `maxConcurrent` subscriptions to come about if and only if it is an arrival that finds a slot given up by a finished signal whose dequeued successor is not yet subscribed to |
| `Flatten.WithinThroughoutIff` | VillagePlay/Pods/ReactiveCocoa/ReactiveCocoa/RACSignal+Operations.m:532-582 | over a whole run, the slots are never overcommitted if and only if no such arrival occurs |
| `Flatten.CompletedTooEarlyIff` | VillagePlay/Pods/ReactiveCocoa/ReactiveCocoa/RACSignal+Operations.m:507-554 | `completed` is sent with every signal received done if and only if none had been taken off the queue and not yet subscribed to |
| `Flatten.CompletesExactlyIff` | VillagePlay/Pods/ReactiveCocoa/ReactiveCocoa/RACSignal+Operations.m:486-597 | over every run of sections: absent errors `completed` has at every point been sent exactly when the receiver and all signals received have completed, never early and never missed, if and only if, while a dequeued signal is still to be subscribed to, neither the receiver ends with nothing active nor, the receiver done and nothing queued, the last active signal ends |
| `Flatten.CompletedWithASignalToCome` | VillagePlay/Pods/ReactiveCocoa/ReactiveCocoa/RACSignal+Operations.m:536-554 | a concrete run: completion with a signal still to be subscribed to, whose value is lost |
| `Flatten.ThreeUnderABoundOfTwo` | VillagePlay/Pods/ReactiveCocoa/ReactiveCocoa/RACSignal+Operations.m:536-582 | a concrete run: three subscriptions under a bound of two |
| `Flatten.CompletesExactlyWhenAllDone` | VillagePlay/Pods/ReactiveCocoa/ReactiveCocoa/RACSignal+Operations.h:208-221 | when callbacks do not interleave: at most `maxConcurrent` active, a queue only when all slots are full, and absent errors `completed` exactly when the receiver and all its signals have completed |
| `FlattenConcat.ConcatenatesIff` | VillagePlay/Pods/ReactiveCocoa/ReactiveCocoa/RACSignal+Operations.h:208-235 | over runs of sections with one slot, each step keeps the output the values of signal after signal, however such a run continues, and `completed` the end of them all, if and only if it is not an arrival or completion of the receiver between a dequeue and the subscription to the dequeued signal |
| `FlattenConcat.FlattenOneIsConcat` | VillagePlay/Pods/ReactiveCocoa/ReactiveCocoa/RACSignal+Operations.h:208-235 | for signals that send a finite script, under every schedule of sections without such a step, `flatten:1` sends a prefix of the concatenation in arrival order, cut at the first error, and all of it once ended |
| `FlattenConcat.ConcatOutOfOrder` | VillagePlay/Pods/ReactiveCocoa/ReactiveCocoa/RACSignal+Operations.m:536-582 | a concrete run with such an arrival: the third signal's value goes out before the second's |
| `FlattenConcat.ConcatCompletesEarly` | VillagePlay/Pods/ReactiveCocoa/ReactiveCocoa/RACSignal+Operations.m:536-597 | a concrete run with such a completion: `completed` goes out before the second signal is subscribed to |
| `Flatten.FlattenSubscription.OuterNext` | VillagePlay/Pods/ReactiveCocoa/ReactiveCocoa/RACSignal+Operations.m:557-572 | the whole `next` callback is one step of the machine and keeps its invariant |
| `Flatten.FlattenSubscription.InnerCompleted` | VillagePlay/Pods/ReactiveCocoa/ReactiveCocoa/RACSignal+Operations.m:536-554 | the whole `completed` callback of an inner signal is one step of the machine and keeps its invariant |
| `SignalZip.ZipsEveryInterleaving` | VillagePlay/Pods/ReactiveCocoa/ReactiveCocoa/RACSignal.m:205-270 | under every interleaving of two sources: the pairs of their values in order, and `completed` exactly when a completed source has no value without a partner |
| `SignalZip.FailureCutsZip` | VillagePlay/Pods/ReactiveCocoa/ReactiveCocoa/RACSignal.m:237-263 | the first error of either source ends the zip after the pairs so far, unless it had completed |
| `SignalZip.ZipSubscription.SelfSends` | VillagePlay/Pods/ReactiveCocoa/ReactiveCocoa/RACSignal.m:237-241 | the object's step for a value of the receiver is the machine's |
| `Materialize.DematerializeUndoesMaterialize` | VillagePlay/Pods/ReactiveCocoa/ReactiveCocoa/RACSignal+Operations.m:1237-1268 | for every grammatical history, dematerializing the materialized signal through the bind machine sends that history and closes exactly when it ends |
| `Materialize.MaterializedIsGrammatical` | VillagePlay/Pods/ReactiveCocoa/ReactiveCocoa/RACSignal+Operations.m:1237-1249 | materializing gives the history's events as values, then `completed` if and only if the history ended, and never an error |
| `Sequences.BindMeetsListIff` | VillagePlay/Pods/ReactiveCocoa/ReactiveCocoa/RACSequence.m:88-139 | the lazy `bind:` gives the documented list if and only if it does not end on an answer of two or more values (with `stop`, or at a chain with no end object); it always gives a prefix |
| `Sequences.BindPassingList` | VillagePlay/Pods/ReactiveCocoa/ReactiveCocoa/RACSequence.m:93-139 | what the lazy bind enumerates: the passed-through values and then the documented list less what is lost |
| `Sequences.EagerBind` | VillagePlay/Pods/ReactiveCocoa/ReactiveCocoa/RACEagerSequence.m:21-40 | the eager sequence's loop gives the documented list on every array |
| `Sequences.FlattenMapConcatenatesIff` | VillagePlay/Pods/ReactiveCocoa/ReactiveCocoa/RACStream.m:69-80 | `flattenMap:` concatenates its sequences if and only if the receiver's chain has an end object or the last sequence has at most one value |
| `Sequences.ReturnIsIdentity` | VillagePlay/Pods/ReactiveCocoa/ReactiveCocoa/RACStream.h:13-48 | `return:` is a left and a right identity of `flattenMap:`, on every sequence |
| `Associativity.AssociatesIff` | VillagePlay/Pods/ReactiveCocoa/ReactiveCocoa/RACStream.h:13-48 | the exact condition for associativity of `flattenMap:`, for every receiver and any two blocks: always on `return:` and on sequences of no values; otherwise as the next two rows say |
| `Associativity.EndObjectAssociatesIff` | VillagePlay/Pods/ReactiveCocoa/ReactiveCocoa/RACSequence.m:93-139 | for a receiver with an end object `flattenMap:` associates if and only if `flattenMap:` with the second block loses nothing on any answer of the first block but the last, and nothing on the last either unless the first `flattenMap:` gives a sequence without an end object |
| `Associativity.EndlessAssociatesIff` | VillagePlay/Pods/ReactiveCocoa/ReactiveCocoa/RACSequence.m:93-139 | for a receiver with none it associates if and only if nothing is lost on any answer but the last; or, where the last answer's first expansion is empty but not all of them are, exactly one value is lost, and that value and every later one of the answers before the last equal the first value of the last answer's expansions |
| `Associativity.FlattenMapAssociates` | VillagePlay/Pods/ReactiveCocoa/ReactiveCocoa/RACStream.h:13-48 | so `flattenMap:` is associative on a sequence with an end object when the first block's answers to its values have one; by `WholeFlattenMap` the result has one too |
| `Sequences.WholeFlattenMap` | VillagePlay/Pods/ReactiveCocoa/ReactiveCocoa/RACSequence.m:93-139 | `flattenMap:` of sequences with an end object has one |
| `StreamOperators.TakeTakes` | VillagePlay/Pods/ReactiveCocoa/ReactiveCocoa/RACStream.m:170-188 | `take:` gives the first values, all of them when there are fewer |
| `StreamOperators.SkipSkips` | VillagePlay/Pods/ReactiveCocoa/ReactiveCocoa/RACStream.m:155-168 | `skip:` gives the values after the first ones |
| `StreamOperators.TakeAndSkipSplit` | VillagePlay/Pods/ReactiveCocoa/ReactiveCocoa/RACStream.m:155-188 | `take:` and `skip:` of one count put together are the sequence |
| `StreamOperators.MapMaps` | VillagePlay/Pods/ReactiveCocoa/ReactiveCocoa/RACStream.m:89-97 | `map:` applies the block to each value, in order, whatever the receiver ends in |
| `StreamOperators.FilterFilters` | VillagePlay/Pods/ReactiveCocoa/ReactiveCocoa/RACStream.m:119-131 | `filter:` gives the passing values in order |
| `StreamOperators.ScanFolds` | VillagePlay/Pods/ReactiveCocoa/ReactiveCocoa/RACStream.m:267-281 | value i of a scan is the left fold of the first i + 1 values with their indexes |
| `StreamOperators.UntilSplits` | VillagePlay/Pods/ReactiveCocoa/ReactiveCocoa/RACStream.m:283-325 | `takeUntilBlock:` and `skipUntilBlock:` split the list before its first passing value |
| `StreamOperators.DistinctKeepsChanges` | VillagePlay/Pods/ReactiveCocoa/ReactiveCocoa/RACStream.m:335-350 | `distinctUntilChanged` keeps the values that differ from the one before them |
| `StreamOperators.ConcatAppends` | VillagePlay/Pods/ReactiveCocoa/ReactiveCocoa/RACSequence.m:141-147 | `concat:` is list concatenation, including of sequences with no end object |
| `StreamOperators.ZipPairs` | VillagePlay/Pods/ReactiveCocoa/ReactiveCocoa/RACSequence.m:149-163 | `zipWith:` pairs the values up to the shorter length |
| `StreamOperators.FlattenMapAfterTakeIff` | VillagePlay/Pods/ReactiveCocoa/ReactiveCocoa/RACSequence.m:93-139 | `flattenMap:` after a `take:` that reached its count concatenates if and only if the last value's sequence has at most one value |
| `StreamOperators.FlattenMapDoesNotAssociate` | VillagePlay/Pods/ReactiveCocoa/ReactiveCocoa/RACSequence.m:93-139 | associativity fails on a concrete input: a block that uses `take:` |
| `ReplaySubject.LateSubscriberSeesEnd` | VillagePlay/Pods/ReactiveCocoa/ReactiveCocoa/RACReplaySubject.m:55-110 | a subscriber that joins at any point, from inside a delivery too, has not left and was not overtaken by a nested send sees exactly the end of a grammatical history: the values buffered when it joined, all later events and the terminal event; those values are the last min(capacity, sent) if and only if no more have been sent or the last was not still being delivered; with unlimited capacity the whole history |
| `ReplaySubject.InOrderIff` | VillagePlay/Pods/ReactiveCocoa/ReactiveCocoa/RACSubject.m:78-111 | with sends nested in deliveries, a subscriber is given each event since it joined exactly once, and in order if and only if no inner send overtook an outer one |
| `ReplaySubject.SubscribersAre` | VillagePlay/Pods/ReactiveCocoa/ReactiveCocoa/RACSubject.m:54-76 | in every run, from the actions: the history is what was sent, and the subscribers are those that joined before the end and have not left, in the order in which they joined |
| `ReplaySubject.LeavingTakesEffect` | VillagePlay/Pods/ReactiveCocoa/ReactiveCocoa/RACSubject.m:65-75 | over every run who has left is subscribed no more and is from then on given only events that were being sent to it when it left, none sent later; the others stay in order |
| `ReplaySubject.SendsEnd` | VillagePlay/Pods/ReactiveCocoa/ReactiveCocoa/RACSubject.m:78-87 | left to itself a subject finishes all sends, nested ones too, in as many steps as deliveries and ends are left |
| `ReplaySubject.ExactBufferIff` | VillagePlay/Pods/ReactiveCocoa/ReactiveCocoa/RACReplaySubject.m:86-95 | at every point of every run the buffer is exactly the last min(capacity, sent) values if and only if no more have been sent than fit or the last one is not still being delivered |
| `ReplaySubject.IdleBuffer` | VillagePlay/Pods/ReactiveCocoa/ReactiveCocoa/RACReplaySubject.m:86-95 | with no send under way it always is |
| `ReplaySubject.JoinInsideDelivery` | VillagePlay/Pods/ReactiveCocoa/ReactiveCocoa/RACReplaySubject.m:86-95 | a concrete run: a subscriber joining inside a delivery is replayed two values at a capacity of one |
| `ReplaySubject.ApplyKeepsBuffer` | VillagePlay/Pods/ReactiveCocoa/ReactiveCocoa/RACReplaySubject.m:86-110 | every step keeps the buffer a suffix of the values sent, within the capacity but for values being sent, and the flags equal to how the history ended |
| `ReplaySubject.Subject.Subscribe` | VillagePlay/Pods/ReactiveCocoa/ReactiveCocoa/RACReplaySubject.m:55-82 | the object's replay loop sends the buffered values and then the terminal event, or subscribes to what follows |
| `ReplaySubject.Subject.SendEvent` | VillagePlay/Pods/ReactiveCocoa/ReactiveCocoa/RACReplaySubject.m:86-110 | a whole send calls every subscriber there was, in order, and then trims |
| `Multicast.SubscribedAtMostOnce` | VillagePlay/Pods/ReactiveCocoa/ReactiveCocoa/RACMulticastConnection.m:54-62 | in every interleaving of connecting, subscribing and disposing threads the source is subscribed to at most once, and at rest is active if and only if someone connected and the connection is not disposed of |
| `Multicast.NeverReconnects` | VillagePlay/Pods/ReactiveCocoa/ReactiveCocoa/RACMulticastConnection.m:54-82 | once its disposable is disposed of no run makes the connection active again |
| `Multicast.ClosedIffEmptied` | VillagePlay/Pods/ReactiveCocoa/ReactiveCocoa/RACMulticastConnection.m:64-82 | left to `autoconnect`, the connection is disposed of if and only if the subscriber count has returned to zero |
| `Multicast.ClosedIff` | VillagePlay/Pods/ReactiveCocoa/ReactiveCocoa/RACMulticastConnection.m:54-82 | in every run the connection is disposed of if and only if that was asked for directly or the subscriber count has returned to zero |
| `Multicast.HasConnectedIff` | VillagePlay/Pods/ReactiveCocoa/ReactiveCocoa/RACMulticastConnection.m:54-82 | in every run, from the actions alone, someone has connected if and only if they take some thread through its compare-and-swap, directly or as a subscriber |
| `Multicast.SubscriptionTakesEffect` | VillagePlay/Pods/ReactiveCocoa/ReactiveCocoa/RACMulticastConnection.m:64-82 | a whole subscription leaves the subscriber counted and live and the source subscribed to once |
| `Multicast.ConnectTakesEffect` | VillagePlay/Pods/ReactiveCocoa/ReactiveCocoa/RACMulticastConnection.m:54-62 | a direct `connect` subscribes to the source unless someone has, and counts nobody |
| `Multicast.LeavingTakesEffect` | VillagePlay/Pods/ReactiveCocoa/ReactiveCocoa/RACMulticastConnection.m:64-82 | a subscriber that leaves is live and counted no more, and the last one disposes of the source |
| `Multicast.LeavingIsFinal` | VillagePlay/Pods/ReactiveCocoa/ReactiveCocoa/RACMulticastConnection.m:64-82 | in every run who has left stays away |
| `Multicast.LateSubscriberStays` | VillagePlay/Pods/ReactiveCocoa/ReactiveCocoa/RACMulticastConnection.m:64-82 | a later subscriber connects nothing and stays subscribed until it leaves, unlike documented |
| `Multicast.EveryRun` | VillagePlay/Pods/ReactiveCocoa/ReactiveCocoa/RACMulticastConnection.m:54-82 | the invariants behind these, among them that the counter equals the number of subscriptions begun and not counted down |
| `Multicast.MulticastConnection.Connect` | VillagePlay/Pods/ReactiveCocoa/ReactiveCocoa/RACMulticastConnection.m:54-62 | the object's `connect` run by itself is three steps of the machine if it wins and one if it does not |
| `Disposables.BlocksRunOnce` | VillagePlay/Pods/ReactiveCocoa/ReactiveCocoa/RACDisposable.m:69-84 | over any shared, nested disposables and any interleaving, a leaf's block runs at most once, and exactly once when the leaf is disposed and all is quiet |
| `Disposables.HeldIsDisposed` | VillagePlay/Pods/ReactiveCocoa/ReactiveCocoa/RACCompoundDisposable.m:125-237 | what a container held when disposed of, or was given before or after, and was not taken out, is disposed of once all is quiet |
| `Disposables.DisposedWhenAsked` | VillagePlay/Pods/ReactiveCocoa/ReactiveCocoa/RACDisposable.m:69-84 | what -dispose is called on is disposed of in every run, once all is quiet |
| `Disposables.DisposedOnlyWhenReached` | VillagePlay/Pods/ReactiveCocoa/ReactiveCocoa/RACCompoundDisposable.m:125-237 | from nothing, in every run, what is disposed of has been asked to be or was given to a container that is disposed of |
| `Disposables.TreeIsDisposed` | VillagePlay/Pods/ReactiveCocoa/ReactiveCocoa/RACCompoundDisposable.h:11-46 | so is everything under a disposed root, at any depth, through compounds and serials |
| `Disposables.TakenOutIsNotDisposed` | VillagePlay/Pods/ReactiveCocoa/ReactiveCocoa/RACSerialDisposable.m:71-105 | what is removed from its only compound, or swapped out of its only serial, is never disposed of by them |
| `Disposables.CascadeEnds` | VillagePlay/Pods/ReactiveCocoa/ReactiveCocoa/RACCompoundDisposable.m:201-237 | in every run due work can be carried out and doing so uses up work, even when disposables hold each other |
| `Disposables.CompoundDisposable.AddDisposable` | VillagePlay/Pods/ReactiveCocoa/ReactiveCocoa/RACCompoundDisposable.m:125-162 | the object fills the first free inline slot, then the array; when disposed it leaves the argument to be disposed of |
| `Disposables.CompoundDisposable.RemoveDisposable` | VillagePlay/Pods/ReactiveCocoa/ReactiveCocoa/RACCompoundDisposable.m:164-191 | the object drops every occurrence from the slots and, from the end, from the array |
| `Disposables.CompoundDisposable.Dispose` | VillagePlay/Pods/ReactiveCocoa/ReactiveCocoa/RACCompoundDisposable.m:201-237 | the object gives up everything it holds, slots first, and is disposed |
| `Disposables.SerialDisposable.SwapInDisposable` | VillagePlay/Pods/ReactiveCocoa/ReactiveCocoa/RACSerialDisposable.m:71-90 | the object swaps unless disposed, when the new disposable is to be disposed of and nil is returned |
| `TestScheduler.StepTwiceIffStepOnce` | VillagePlay/Pods/ReactiveCocoa/ReactiveCocoa/RACTestScheduler.m:106-129 | for any blocks, which may depend on all that has happened, schedule, and cancel what they scheduled, `step:m` then `step:n` can lead where `step:` of m + n can, and only there |
| `TestScheduler.EveryRun` | VillagePlay/Pods/ReactiveCocoa/ReactiveCocoa/RACTestScheduler.m:106-161 | in every run no action runs twice and blocks given to `schedule:` run in the order in which they were |
| `TestScheduler.FollowsAgenda` | VillagePlay/Pods/ReactiveCocoa/ReactiveCocoa/RACTestScheduler.m:106-161 | every run is one of an agenda without a heap: a list of what was asked for, with the dates and blocks given, of which waiting actions of the earliest date are taken up and run the block asked for |
| `TestScheduler.RunsInDateOrder` | VillagePlay/Pods/ReactiveCocoa/ReactiveCocoa/RACTestScheduler.m:151-161 | over every such run, of two actions waiting together the one asked for a later date is not taken up while the other one waits |
| `TestScheduler.DisposedNeverRuns` | VillagePlay/Pods/ReactiveCocoa/ReactiveCocoa/RACScheduler.h:61-87 | an action disposed of before it began never runs |
| `TestScheduler.StepEmptiesIff` | VillagePlay/Pods/ReactiveCocoa/ReactiveCocoa/RACTestScheduler.m:106-129 | in every run of a step nothing is left pending if and only if the actions there were and those created on the way are no more than the ticks |
| `TestScheduler.StepAllEmpties` | VillagePlay/Pods/ReactiveCocoa/ReactiveCocoa/RACTestScheduler.m:131-133 | so `stepAll` leaves nothing whenever it comes upon fewer than 2^64 actions |
| `TestScheduler.RunsTicksBlocksIff` | VillagePlay/Pods/ReactiveCocoa/ReactiveCocoa/RACTestScheduler.h:30-36 | with blocks left over, `step:` has run the documented number if and only if no action was disposed of by the time its turn came |
| `TestScheduler.DisposedActionUsesUpStep` | VillagePlay/Pods/ReactiveCocoa/ReactiveCocoa/RACTestScheduler.m:106-129 | a single step on a disposed action runs nothing although a block is waiting |
| `TestScheduler.Scheduler.Step` | VillagePlay/Pods/ReactiveCocoa/ReactiveCocoa/RACTestScheduler.m:106-129 | the object's loop is a step of the relation, by the minima it picked |
| `ImageCache.EveryRun` | VillagePlay/Pods/AFNetworking/UIKit+AFNetworking/AFAutoPurgingImageCache.m:110-177 | over every run the usage is the sum of the stored sizes modulo 2^64, what is stored is the last image added under its identifier with its size and, from the operations alone, the time it was last added or looked up, and the limits never change |
| `ImageCache.EvictsLeastRecentlyUsed` | VillagePlay/Pods/AFNetworking/UIKit+AFNetworking/AFAutoPurgingImageCache.m:123-177 | in every run no image that a purge leaves was last added or looked up before one that it evicts |
| `ImageCache.MissedOnlyWhenPurged` | VillagePlay/Pods/AFNetworking/UIKit+AFNetworking/AFAutoPurgingImageCache.m:110-177 | in every run an image added and not removed is stored unless a purge has evicted it since it was last added |
| `ImageCache.PurgesIff` | VillagePlay/Pods/AFNetworking/UIKit+AFNetworking/AFAutoPurgingImageCache.m:123-142 | a purge removes something if and only if the usage exceeds the capacity, so not when it reaches it, unlike documented |
| `ImageCache.FullIsNotPurged` | VillagePlay/Pods/AFNetworking/UIKit+AFNetworking/AFAutoPurgingImageCache.m:123-142 | a concrete cache filled to its capacity is left as it is |
| `ImageCache.PurgeReachesPreferred` | VillagePlay/Pods/AFNetworking/UIKit+AFNetworking/AFAutoPurgingImageCache.m:123-142 | a purge that runs ends at or below the preferred usage |
| `ImageCache.PurgeEvictsOldest` | VillagePlay/Pods/AFNetworking/UIKit+AFNetworking/AFAutoPurgingImageCache.m:123-142 | no survivor was last accessed before an evicted image, and survivors are untouched |
| `ImageCache.LastEvictionNeededIff` | VillagePlay/Pods/AFNetworking/UIKit+AFNetworking/AFAutoPurgingImageCache.m:123-142 | the last eviction was needed if and only if the preferred usage is below the usage; above it the subtraction wraps and everything goes, equal to it one image goes for nothing |
| `ImageCache.PurgedBelowPreferred` | VillagePlay/Pods/AFNetworking/UIKit+AFNetworking/AFAutoPurgingImageCache.m:123-142 | a concrete cache above its capacity and below its preferred usage, of which nothing is left |
| `ImageCache.WithinCapacityAfterPurge` | VillagePlay/Pods/AFNetworking/UIKit+AFNetworking/AFAutoPurgingImageCache.h:106-119 | in every run each purge leaves the usage within the capacity when the preferred usage is |
| `ImageCache.AutoPurgingImageCache.PurgeIfNeeded` | VillagePlay/Pods/AFNetworking/UIKit+AFNetworking/AFAutoPurgingImageCache.m:123-142 | the object sorts by last access, evicts in its loop and adjusts its counter, as specified |
| `ImageCache.AutoPurgingImageCache.AddImage` | VillagePlay/Pods/AFNetworking/UIKit+AFNetworking/AFAutoPurgingImageCache.m:110-143 | the object's two blocks of an add, run together, keep the account |
| `ImageCache.AutoPurgingImageCache.ImageWithIdentifier` | VillagePlay/Pods/AFNetworking/UIKit+AFNetworking/AFAutoPurgingImageCache.m:170-177 | a lookup returns the stored image and moves its access date only |
| `Words.WrappedSum` | VillagePlay/Pods/AFNetworking/UIKit+AFNetworking/AFAutoPurgingImageCache.m:114-141 | adding and subtracting in the 64-bit counter agrees with unbounded arithmetic reduced modulo 2^64 |
| `ImageDownloader.EveryRun` | VillagePlay/Pods/AFNetworking/UIKit+AFNetworking/AFImageDownloader.m:185-389 | every interleaving of downloads, cancellations, completions and the sections of completion handlers keeps: at most one task per URL to attach to, the queue in prioritization order, every receipt either answered or held by exactly one task, handlers called in attach order with what the session reported |
| `ImageDownloader.AnsweredAtMostOnce` | VillagePlay/Pods/AFNetworking/UIKit+AFNetworking/AFImageDownloader.h:106-151 | no receipt is answered more often than it was given out, so not after being cancelled |
| `DownloadAnswers.EveryAnswerIsRight` | VillagePlay/Pods/AFNetworking/UIKit+AFNetworking/AFImageDownloader.m:185-268 | in every run, from the actions: an answer without a task is the bad URL of a download that had none, the image the cache had for a URL with no task, or a cancellation; one by a task goes to a receipt that asked for the task's URL and is what the session reported for the task |
| `DownloadAnswers.EveryRunOnBook` | VillagePlay/Pods/AFNetworking/UIKit+AFNetworking/AFImageDownloader.m:185-323 | and exactly those are given: in every run the URL of each task, the receipts attached to it in order, what it was reported, which task a URL can be attached to, and the answers given without a task, in order, are those of a book kept from the actions and from how far the session has got |
| `DownloadAnswers.ForgottenNeverRun` | VillagePlay/Pods/AFNetworking/UIKit+AFNetworking/AFImageDownloader.m:297-323 | in every run a task that can no longer be attached to before its session has completed was cancelled |
| `ImageDownloader.StopsOnlyWhenAllAnswered` | VillagePlay/Pods/AFNetworking/UIKit+AFNetworking/AFImageDownloader.m:236-268 | when the session and the handlers have nothing left to do and the maximum is positive, every receipt has been answered as often as it was given out |
| `ImageDownloader.WorkDecreases` | VillagePlay/Pods/AFNetworking/UIKit+AFNetworking/AFImageDownloader.m:236-268 | and they cannot go on for ever: each section or completion uses up work |
| `ImageDownloader.NoIdleSlot` | VillagePlay/Pods/AFNetworking/UIKit+AFNetworking/AFImageDownloader.m:348-360 | while a task is suspended no slot is free unless a handler is about to fill it |
| `ImageDownloader.StartsInOrderIff` | VillagePlay/Pods/AFNetworking/UIKit+AFNetworking/AFImageDownloader.m:276-389 | a started task is the first of the prioritization unless, FIFO, it is a new download that finds a slot just given back while others wait |
| `ImageDownloader.NewDownloadJumpsQueue` | VillagePlay/Pods/AFNetworking/UIKit+AFNetworking/AFImageDownloader.m:279-286 | the concrete run: first in first out, a third download is started while the second waits |
| `ImageDownloader.StartsFirst` | VillagePlay/Pods/AFNetworking/UIKit+AFNetworking/AFImageDownloader.m:348-383 | the dequeue loop starts the oldest (FIFO) or newest (LIFO) suspended task, if there is any |
| `ImageDownloader.WithinMaximum` | VillagePlay/Pods/AFNetworking/UIKit+AFNetworking/AFImageDownloader.h:53-70 | in every run in which no completion of a never-started task takes a slot, downloads in progress equal the count and stay within the maximum, and so do running sessions |
| `ImageDownloader.UncountedStep` | VillagePlay/Pods/AFNetworking/UIKit+AFNetworking/AFImageDownloader.m:340-346 | exactly such completions make the count fall behind the downloads in progress |
| `ImageDownloader.UncountedOverRun` | VillagePlay/Pods/AFNetworking/UIKit+AFNetworking/AFImageDownloader.m:340-346 | over every run the downloads in progress beyond the count are the completions that gave back a slot never taken less those that gave back none |
| `ImageDownloader.MaximumExceededInRunIff` | VillagePlay/Pods/AFNetworking/UIKit+AFNetworking/AFImageDownloader.m:279-346 | so after any run downloads of new URLs that fill the free slots take more slots than the maximum if and only if there were more of the first than of the second, and run more sessions if and only if that is so with the downloads finishing added to the second |
| `ImageDownloader.MaximumExceededIff` | VillagePlay/Pods/AFNetworking/UIKit+AFNetworking/AFImageDownloader.m:279-286 | from any state that keeps the invariants: more sessions run than the maximum afterwards if and only if more were running than counted; and more slots are in use if and only if more were in use than counted |
| `ImageDownloader.MaximumExceeded` | VillagePlay/Pods/AFNetworking/UIKit+AFNetworking/AFImageDownloader.m:297-346 | a reachable state with two running downloads under a maximum of one |
| `ImageDownloader.AFImageDownloader.DownloadImage` | VillagePlay/Pods/AFNetworking/UIKit+AFNetworking/AFImageDownloader.m:185-295 | the object's download is the machine's: bad URL, attached, from the cache, started or queued; a receipt exactly when a task will answer |
| `ImageDownloader.AFImageDownloader.CancelTask` | VillagePlay/Pods/AFNetworking/UIKit+AFNetworking/AFImageDownloader.m:297-323 | the object's cancellation answers the receipt's first handler with a cancelled error, and cancels the task only when pending and without handlers |
| `ImageDownloader.AFImageDownloader.StartNextTaskIfNecessary` | VillagePlay/Pods/AFNetworking/UIKit+AFNetworking/AFImageDownloader.m:348-360 | the object's loop starts the first suspended task of the prioritization when below the maximum |
| `ImageDownloader.AFImageDownloader.Complete` | VillagePlay/Pods/AFNetworking/UIKit+AFNetworking/AFImageDownloader.m:236-268 | a completion handler run through calls all of its task's handlers, in order, once |
| `LoggingQueue.EveryScheduleDeliversDue` | VillagePlay/Pods/CocoaLumberjack/Classes/DDLog.m:801-859 | whatever queues the loggers use and however they are scheduled, between two messages every logger has received exactly what the blocks run so far entitle it to, in order |
| `LoggingQueue.FirstInFirstOut` | VillagePlay/Pods/CocoaLumberjack/Classes/DDLog.m:351-372 | blocks begin in the order in which they were accepted, and at most 1000 messages wait or run |
| `LoggingQueue.NothingIsLost` | VillagePlay/Pods/CocoaLumberjack/Classes/DDLog.m:801-859 | every run can go on, nothing further being submitted, to where each logger has received all that the blocks accepted entitle it to |
| `LoggingQueue.FlushComesAfter` | VillagePlay/Pods/CocoaLumberjack/Classes/DDLog.m:509-525 | when a flush begins, each logger has received all that the blocks accepted before the flush entitle it to |
| `LoggingQueue.KeepsPromise` | VillagePlay/Pods/CocoaLumberjack/Classes/DDLog.h:581-592 | a logger added with one level at a time receives the messages between its adding and removal whose flag meets the level, once each |
| `LoggingQueue.SentAsPromisedIff` | VillagePlay/Pods/CocoaLumberjack/Classes/DDLog.h:581-592 | at every point of every history, whatever is logged next reaches a logger as often as promised if and only if its levels, the empty ones aside, are just the promised one |
| `LoggingQueue.DeliveredAtMostOnceIff` | VillagePlay/Pods/CocoaLumberjack/Classes/DDLog.m:801-843 | at every point, whatever is logged next reaches it at most once if and only if at most one of its levels is not empty |
| `LoggingQueue.FlagDeliveredAtMostOnceIff` | VillagePlay/Pods/CocoaLumberjack/Classes/DDLog.m:801-843 | and every message whose flag is a single bit at most once if and only if its levels are pairwise disjoint |
| `LoggingQueue.DeliveredTwice` | VillagePlay/Pods/CocoaLumberjack/Classes/DDLog.m:679-723 | a concrete history: added for errors and for errors and warnings, an error arrives twice |
| `LoggingQueue.DisjointLevelsDeliverTwice` | VillagePlay/Pods/CocoaLumberjack/Classes/DDLog.m:801-843 | a concrete history: a message with two flag bits arrives twice at two disjoint levels |
| `LoggingQueue.AddingAgainKeepsPromiseIff` | VillagePlay/Pods/CocoaLumberjack/Classes/DDLog.m:679-754 | added again while added, and removed, it is silent afterwards as promised if and only if the level was the same or is empty |
| `LoggingQueue.SilentAfterRemovalIff` | VillagePlay/Pods/CocoaLumberjack/Classes/DDLog.m:725-754 | after a removal nothing reaches the logger if and only if every level it was added with but the oldest is empty |
| `LoggingQueue.LevelsStep` | VillagePlay/Pods/CocoaLumberjack/Classes/DDLog.m:679-776 | each change of the list of nodes is, seen by one logger, the documented change of its levels |
| `LoggingQueue.LoggerList.Add` | VillagePlay/Pods/CocoaLumberjack/Classes/DDLog.m:679-723 | the object's search and append |
| `LoggingQueue.LoggerList.Remove` | VillagePlay/Pods/CocoaLumberjack/Classes/DDLog.m:725-754 | the object's search and removal of the first node of the logger |
| `LoggingQueue.LoggerList.LogMessage` | VillagePlay/Pods/CocoaLumberjack/Classes/DDLog.m:801-843 | the object's loop queues the message once for every node whose level its flag meets, in order |
| `LogFiles.KeepsLongestAllowed` | VillagePlay/Pods/CocoaLumberjack/Classes/DDFileLogger.m:175-234 | deleting old files keeps the longest newest-first run within the count and the quota, or the newest file alone when it is not archived |
| `LogFiles.KeepsNewest` | VillagePlay/Pods/CocoaLumberjack/Classes/DDFileLogger.m:175-234 | no file kept is older than a deleted one |
| `LogFiles.DeletedIff` | VillagePlay/Pods/CocoaLumberjack/Classes/DDFileLogger.m:207-232 | the file at a position, active or not, is deleted if and only if it and the newer ones are not within the limits and it is not first and unarchived |
| `LogFiles.FileIsLeftIff` | VillagePlay/Pods/CocoaLumberjack/Classes/DDFileLogger.m:175-234 | so of the directory, in any listing, exactly the files within the limits where they are listed, or listed first and unarchived, are left, as they were |
| `LogFiles.QuotaExceededIff` | VillagePlay/Pods/CocoaLumberjack/Classes/DDFileLogger.h:88-94 | the quota is exceeded afterwards if and only if the newest file is unarchived and exceeds it alone |
| `LogFiles.KeepsPromisedNumberIff` | VillagePlay/Pods/CocoaLumberjack/Classes/DDFileLogger.h:77-86 | the documented number of archived files besides the active one is kept if and only if there are no more files than the maximum: the active file is counted too |
| `LogFiles.ActiveFileIsNewest` | VillagePlay/Pods/CocoaLumberjack/Classes/DDFileLogger.m:814-945 | in every run in which the clock is ahead of all files whenever one is created, however files of one date are listed, the file written to exists, is unarchived, older than none and below the maximum size, so is never deleted |
| `LogFiles.ArchivedFilesStay` | VillagePlay/Pods/CocoaLumberjack/Classes/DDFileLogger.m:814-945 | over every run, whatever the clock does, an archived file never changes until it is deleted |
| `LogFiles.SizesAreSums` | VillagePlay/Pods/CocoaLumberjack/Classes/DDFileLogger.m:947-1010 | over every run, from the operations, the size of a file is what it held at the start and the messages logged while it was the one written to, added up in words |
| `Words.CountedUpIsSum` | VillagePlay/Pods/CocoaLumberjack/Classes/DDFileLogger.m:854-868 | adding up in words is adding up, then reducing modulo 2^64 |
| `LogFiles.MessageRollsIff` | VillagePlay/Pods/CocoaLumberjack/Classes/DDFileLogger.m:854-868 | in every run a message leaves the file it is written to archived and closed if and only if the maximum size last set is positive and that sum reaches it, and open otherwise |
| `LogFiles.OthersRollIff` | VillagePlay/Pods/CocoaLumberjack/Classes/DDFileLogger.m:814-852 | an explicit roll always, the timer and the setters exactly when the age or size is due, leave the open file archived and closed |
| `LogFiles.NothingLoggedToArchived` | VillagePlay/Pods/CocoaLumberjack/Classes/DDFileLogger.m:814-842 | over every run nothing is logged to a file after it was archived |
| `LogFiles.ResumesIff` | VillagePlay/Pods/CocoaLumberjack/Classes/DDFileLogger.m:883-945 | with no file written to, a message resumes the file listed first if and only if it is not archived, may be reused, and is neither too big nor too old, and otherwise creates one |
| `LogFiles.DatesOfFiles` | VillagePlay/Pods/CocoaLumberjack/Classes/DDFileLogger.m:436-488 | over every run the date of a file is the one it had at the start or that of the message that created it |
| `LogFiles.SettingsAreLastSet` | VillagePlay/Pods/CocoaLumberjack/Classes/DDFileLogger.m:648-709 | over every run each setting is the one last set |
| `LogFiles.NewFileSurvivesIff` | VillagePlay/Pods/CocoaLumberjack/Classes/DDFileLogger.m:436-488 | a new file survives the clean-up of its own creation if and only if it is listed first or is within the limits where it is listed, which among files of its date may be anywhere |
| `LogFiles.NewFilePlace` | VillagePlay/Pods/CocoaLumberjack/Classes/DDFileLogger.m:1425-1440 | in every listing it has a place, and the first if the clock is ahead of all files |
| `LogFiles.NeverLostIff` | VillagePlay/Pods/CocoaLumberjack/Classes/DDFileLogger.m:814-945 | over every run, whatever the clock does, the file being written to is there at every point if and only if each file created was listed first or within the limits |
| `LogFiles.LostToATie` | VillagePlay/Pods/CocoaLumberjack/Classes/DDFileLogger.m:1425-1440 | a concrete run: a file created at the date of an archived one and listed behind it is deleted at once, and nothing is written until the process is relaunched |
| `LogFiles.LostUntilRelaunch` | VillagePlay/Pods/CocoaLumberjack/Classes/DDFileLogger.m:947-1010 | with the file to be written to gone, nothing is written until the process is relaunched |
| `LogFiles.FileLogger.DeleteOldLogFiles` | VillagePlay/Pods/CocoaLumberjack/Classes/DDFileLogger.m:175-234 | the object's loops over the sorted files delete exactly what is specified |
| `LogFiles.FileLogger.Log` | VillagePlay/Pods/CocoaLumberjack/Classes/DDFileLogger.m:990-1023 | the object's logging of a message: find or create the file, write, roll when it has reached the maximum size |
| `LogLevels.LevelRoundTrip` | VillagePlay/Pods/CocoaLumberjack/Classes/CocoaLumberjack.swift:19-26 | converting a declared level to a flag word and back gives the level |
| `LogLevels.LeastCoveringLevel` | VillagePlay/Pods/CocoaLumberjack/Classes/CocoaLumberjack.swift:25-48 | on any word the level covers its standard bits; on an undeclared word it is the least declared level that does |
| `LogLevels.PassesOwnLevelIff` | VillagePlay/Pods/CocoaLumberjack/Classes/CocoaLumberjack.swift:62-68 | a message passes the gate at the level its own flags convert to if and only if some standard flag is set |
| `LogLevels.PassesAtIff` | VillagePlay/Pods/CocoaLumberjack/Classes/DDLog.h:102-167 | a standard flag passes at exactly the levels from its own upwards |

## Left out

- Real threads, queues and locks: sections that the code runs under one lock or on one serial queue are atomic steps, and everything else interleaves freely.
- Memory and object lifetime: weak references, deallocation handlers and autorelease pools.
- `combineLatestWith:`, whose state is two values and two flags, the `aggregate` folds, and `throttle`, `bufferWithTime`, `groupBy`, `retry` and the other signal operators: they would add easier members.
- Infinite sequences and the memoization of heads and tails: sequences are finite chains, and reading one twice gives the same values by construction. The folds, `any:` and `all:` of sequences are not modelled.
- Values of nil, which the code stores as a placeholder object.
- A subscriber that sends to a replay subject from inside its replay: the code would change an array it enumerates.
- Subscribing to a replay subject through a scheduler is one step, taken when the scheduled block runs.
- `after:schedule:` with equal dates on the test scheduler: the heap is not part of this model, so any minimum may be picked. Blocks that step the scheduler themselves, repeating actions and `scheduleRecursiveBlock:` are left out.
- The session behind the image downloader: a task completes once, with any outcome, if it was resumed or cancelled. Cancelling a data task directly is left out. An absent success or failure block is a block that does nothing. Adding a downloaded image to the cache is left out: what the cache answers is an input of each download.
- Merged download tasks and nodes of disposables are values in a table rather than objects of their own; they are named by position, as the code names them by identity.
- Image sizes are given; the cache keys derived from requests are strings.
- UnaliasedRunKeepsPromise: leaves out a stopped source that sends on from inside its own subscription; `StopTakesEffectIff` says that nothing else keeps `stop` from taking effect.
- Flatten: the receiver sends one event at a time, and each signal sends only while subscribed to, as the framework requires of signals.
- LateSubscriberSeesEnd: leaves out a subscriber that has left or was overtaken by a nested send; `InOrderIff` says when that is.
- didAddLogger, willRemoveLogger and flush callbacks of loggers, formatters, and log statements made synchronously: only deliveries of messages are recorded.
- File names, attributes, protection classes and failures of the file system; the directory is listed newest first in any order that the dates allow, each time anew. Files larger than 2^64 bytes together.
- The failable initializer of the Swift level enumeration is taken to succeed on the declared values only.
- User interface code, networking and request serialization, the database and storage wrappers, SDWebImage, closed SDKs and the application's own categories.
- MaterializedIsGrammatical: speaks of grammatical histories only, which is what a subscriber can receive.
- DematerializeUndoesMaterialize: returned signals send as soon as they are subscribed to, as they do on the scheduler that delivers the events.
- StepAllEmpties: speaks of steps that come upon fewer than 2^64 actions, because `stepAll` is 2^64 - 1 ticks; `StepEmptiesIff` says that nothing else keeps it from emptying.
- ActiveFileIsNewest: assumes the clock is ahead of all files when a file is created; `NeverLostIff` and `NewFileSurvivesIff` say what happens otherwise.
- NeverLostIff: speaks of runs in which the files are of less than 2^64 bytes together at each creation, the width of the counter.
- WithinCapacityAfterPurge: speaks of stored sizes of less than 2^64 bytes together, the width of the counter.
