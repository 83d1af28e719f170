# Renoir: a model of its iterations, joins, aggregations and channels

Renoir runs a dataflow program on many replicas of its blocks.  This project models the parts of it whose
correctness depends on more than one piece of code, and proves for all inputs, all runs or all
interleavings that they do what they are for.  One module stands for one component.

**Iterations.**  `IterationProtocol` is the step relation of an iteration: the replicas of the `Iterate` or
`Replay` block with the state cell, the lock and the barrier that those of a host share, the replicas of the
loop body that wait for the lock, the `IterationEnd` replicas, the `IterationLeader`, and the queues between
them.  A round of a replica is one step, and what happens at its end (lock, swap, update, barrier, unlock) is
one step each.  `IterationInvariant` and `IterationRefinement` hold the invariants, and `IterationTheorems` and
`IterationRuns` state what follows in every state of every interleaving: safety, refinement of a loop on one
machine (`SequentialLoop`), and freedom from deadlock; `IterationLogs` says the same without the loop, by what
one replica emits from what others have emitted, and `IterationProgress` bounds the number of steps of a round.
`IterationLeader` and `IterationSources` model the operators themselves (the leader, `IterationEnd`, `Iterate`
and `Replay`) as classes over streams; `IterationRuns.LeaderIsTheOperator` connects the leader of the two, and
`LocalFold` is the fold of a replica that comes before its `IterationEnd`.

**Programs on top of iterations.**  `ConnectedComponents`, `TransitiveClosure` (two of the examples),
`TwoPasses` (`fold_scan` and `reduce_scan`) and `DeltaIterate` (`delta_iterate`) are programs for one machine,
of type `SequentialLoop.Program`.  `ComponentJobs` and `ScanJobs` take two of them to jobs of the protocol with
any number of replicas and hosts, and state their results for every interleaving; `Layers` is the execution
graph of such jobs.

**Joins.**  `JoinSpec` says how often a tuple occurs in a join.  `HashJoin` (the local hash join and the two
forms of the keyed join) and `SortMergeJoin` are the operators, `JoinsAgree` compares them, and
`JoinDistribution` puts the joins of the replicas together.

**Delivery.**  `Routing` is the choice of the receivers, `Batching` the batcher of one receiver, `EndOfBlock`
the `End` of a block with all its batchers, `Delivery` and `TimedDelivery` what the replicas of the next block
get from it, without and with timestamps.  `Timers` is the thread that flushes batches that are too old,
`Topology` the assignment of ports and connections, `Framing` the messages on a connection between two hosts.

**Aggregation and time.**  `KeyedFold` folds by key, `FoldedRounds` says what its output holds, and `GroupBy`
folds in two phases over the network.  `TimedStreams` says what the order of time is, `Reorder` restores it,
`IntervalJoin` relies on it, `ReorderedJoin` composes the two, and `IntervalPairs` says which pairs they make.

`Streams`, `Keyed` and `Graphs` hold the vocabulary: the elements of a stream and its rounds, the items of a
key, tables by key, the stable sort, paths.  The functions that take a stream apart do so one element at a time;
`StreamRounds` and `FoldSteps` say, by the places of the elements, what they yield.

Operators that read a stream are classes with the fields of the original and a `Next` method; what the
operators before them emit is a field.  Their methods are proved against functions of the stream, and for
most of them a method `Run...` drives an operator to the end of its stream and states the result.
User closures and hash functions are arbitrary functions; the library sort by key is stable.

## Model

| member | source | states |
|---|---|---|
| IterationTheorems.OneDeltaPerReplicaPerRound | src/operator/iteration/leader.rs:119-145 | In every reachable state: although the leader only counts messages, each of its global folds has taken exactly one delta of every IterationEnd replica, every delta in its queue is of the round it is collecting, and taken and queued deltas together are those of the replicas that have finished that round |
| IterationTheorems.GenerationFollowsUpdates | src/operator/iteration/mod.rs:161-197 | Unlocking a lock that is not locked never happens, and after k updates of a host its generation is 2k or 2k + 1 |
| IterationTheorems.NoWriteDuringARound | src/operator/iteration/state_handler.rs:108-136 | The reason given for the unsafe write: when a local leader may write the state cell, no replica of its host, at the head of the loop or in its body, is inside a round |
| IterationTheorems.ReadersSeeTheKthState | src/operator/iteration/mod.rs:129-196 | Whoever consumes or emits round k finds in the cell of its host the state after k rounds of the sequential loop |
| IterationTheorems.FeedbackIsOneRound | src/operator/iteration/iterate.rs:131-161 | The feedback that is taken by looking at its last element alone is exactly that of the last round: the channel never holds elements of two rounds, and none is lost or taken twice |
| IterationTheorems.RoundsDoNotOverlap | src/operator/iteration/iterate.rs:232-276 | A replica begins no round before every replica it sends to has finished the one before |
| IterationTheorems.EmitsWhatTheLoopEmits | src/operator/iteration/iterate.rs:363-540 | Refinement: what any replica emits in round k of any interleaving is what it emits in round k of the sequential loop |
| IterationTheorems.ReplayStartsFromInput | src/operator/iteration/replay.rs:82-193 | Every round of a Replay job starts from the input of its run, whatever was emitted before |
| IterationTheorems.ReplayEmitsInput | src/operator/iteration/replay.rs:167-174 | In every reachable state, what a Replay replica has emitted in its k-th round is what the operators chained to it make of the input of the run, in the state after k rounds |
| IterationTheorems.IterateEmitsFeedback | src/operator/iteration/iterate.rs:232-276 | The same for Iterate: of the input in the first round of a run, and of exactly what its feeder emitted in the round before in every other one |
| IterationLogs.BodyEmitsReceived | src/operator/iteration/iterate.rs:363-540 | A replica of the body has emitted in its k-th round what it makes, in the state after k rounds, of what those before it have emitted in the k-th round |
| IterationLogs.StateIsOfLogs | src/operator/iteration/leader.rs:119-168 | The state after a round: the deltas of what was emitted in it are folded into the state before, one by one, and the condition is applied; the run goes on exactly if the condition is true and rounds are left, and otherwise this state is the next result |
| IterationLogs.OutputIsOfLogs | src/operator/iteration/iterate.rs:232-276 | What an Iterate sends out at the end of a run is what its feeder emitted in the last round |
| IterationTheorems.ProducesTheStatesOfTheLoop | src/operator/iteration/leader.rs:197-234 | Refinement: the final states emitted by the leader are those of the sequential loop |
| IterationTheorems.OutputsWhatTheLoopOutputs | src/operator/iteration/iterate.rs:232-276 | Refinement: what an Iterate replica has sent out of the loop is the data of the last round of every finished run |
| IterationTheorems.NoDeadlock | src/operator/iteration/iterate.rs:163-276 | In every reachable state, some step other than sending a part of a round ahead is enabled |
| IterationProgress.RoundsAreDecided | src/operator/iteration/iterate.rs:232-276 | Progress: however unfair the interleaving, i steps have decided at least i divided by a bound that depends on the job alone, less one, of the rounds, and every replica has finished those |
| IterationProgress.CanGoOn | src/operator/iteration/iterate.rs:232-276 | Every interleaving can be continued until any number of rounds is decided |
| IterationRuns.ResultsAreRuns | src/operator/iteration/leader.rs:119-168 | The n-th result is the state of a loop that runs once, from the initial state and the n-th input, up to its first round after which the condition is false or the maximum is reached |
| IterationRuns.OutputsAreRuns | src/operator/iteration/iterate.rs:232-276 | The n-th output of a replica is its data after that same round, and it has begun as many runs as have ended |
| IterationRuns.InterleavingsAgree | src/operator/iteration/leader.rs:119-145 | If the global fold does not depend on the order of the deltas, any two interleavings agree on all the rounds of all replicas and on the results, as far as both have got |
| IterationRuns.LeaderIsTheOperator | src/operator/iteration/leader.rs:119-234 | The leader of the protocol decides, emits and answers as the operator does on the deltas in their order of arrival, and has its state in between |
| IterationProtocol.SelectLeader | src/operator/iteration/state_handler.rs:62-64 | The local leader is one of the replicas, and the least one |
| IterationLeader.Leader.ProcessUpdates | src/operator/iteration/leader.rs:119-145 | Folds exactly one delta per replica, whatever batch and round ends are between them, and terminates if and only if there are too few |
| IterationLeader.Leader.FinalResult | src/operator/iteration/leader.rs:148-168 | Yields the state and resets it exactly when the condition, which may change the state, is false or the rounds are used up |
| IterationLeader.Leader.Next | src/operator/iteration/leader.rs:197-234 | One element of what is left to emit, with the messages sent meanwhile: no decision is lost or repeated |
| IterationLeader.RunLeader | src/operator/iteration/leader.rs:119-234 | For all its input: one broadcast for every decision, the state while the run goes on and the initial state when it ends; and as output the results of the decisions that end a run, in order, each followed by a FlushAndRestart, and Terminate at the end |
| IterationLeader.FeedbacksAre | src/operator/iteration/leader.rs:216-226 | There are as many broadcasts as decisions, even for a decision that ends a run, each with the state of its own decision |
| IterationLeader.ResultsAre | src/operator/iteration/leader.rs:197-234 | The output has exactly the results of the decisions that end a run, in order, each with the end of its round |
| IterationLeader.RunsAreIndependent | src/operator/iteration/leader.rs:148-168 | After the round that ends a run, the decisions are those of a fresh leader on the remaining deltas |
| IterationLeader.RunIterationEnd | src/operator/iteration/iteration_end.rs:91-122 | IterationEnd sends on every item, and the default delta for each round without one; what it sends ends with Terminate and is an input the leader may receive |
| IterationLeader.SentIsStream | src/operator/iteration/iteration_end.rs:91-122 | It sends items alone until Terminate, and Terminate once if its input ends with it once |
| IterationLeader.SentIsDeltasOfRounds | src/operator/iteration/iteration_end.rs:91-122 | What it sends is its input round by round, the empty rounds replaced by the default |
| IterationLeader.OneDeltaPerRound | src/operator/iteration/iteration_end.rs:91-122 | One delta is sent per round if and only if the local fold emits at most one item per round, which lets the leader count |
| LocalFold.RunLocalFold | src/operator/iteration/iterate.rs:483-487 | The local fold before IterationEnd has at most one item per round, so that a replica sends exactly one delta for each round, even an empty one: the fold of the items of that round |
| IterationSources.Iterate.Next | src/operator/iteration/iterate.rs:232-276 | Whenever input, feedback and answers arrive, the next element, what was sent out and what is still to do make up what was to do before |
| IterationSources.CallIterate | src/operator/iteration/iterate.rs:97-276 | Any number of calls emit the elements of the specified trace, lock the state once for each round end emitted, and send only the outputs of that trace |
| IterationSources.OneRun | src/operator/iteration/iterate.rs:232-276 | A run of k rounds emits the input and the feedback of all rounds but the last, which is the output; the next run is as the first |
| IterationSources.TerminatePasses | src/operator/iteration/iterate.rs:97-122 | Terminate enters the loop and is sent to the output, and what comes after it is as before |
| IterationSources.CallReplay | src/operator/iteration/replay.rs:82-193 | The same for Replay: the elements emitted, and one lock per round |
| IterationSources.OneReplay | src/operator/iteration/replay.rs:82-193 | A run of k rounds emits the input once as it is, and k - 1 times exactly its elements other than batch ends, in their order; the next run is as the first |
| IterationSources.KeptAre | src/operator/iteration/replay.rs:103-108 | What is kept for replaying is the round without its batch ends, element by element in order |
| HashJoin.AddItem | src/operator/join/local_hash.rs:121-156 | An item makes exactly its tuples with the items of the other side so far, and its outer tuple if that side has ended without its key; the tables stay those of the received items |
| HashJoin.SideEnded | src/operator/join/local_hash.rs:158-183 | The end of a side makes exactly the outer tuples of the other side's items of which no partner has come |
| HashJoin.HashJoin.Next | src/operator/join/local_hash.rs:202-277 | The elements between two round ends are the join of that round |
| HashJoin.HashJoin.ProcessItem | src/operator/join/keyed_join.rs:81-180 | The same step written out for both sides in the outer keyed join: after each element the tables are those of the received items and exactly the tuples that are due are made |
| HashJoin.RunHashJoin | src/operator/join/local_hash.rs:121-277 | For every stream of two sides in any interleaving, and all three variants, each round of the output holds every tuple as often as the join of the two sides does |
| HashJoin.RunKeyedInnerJoin | src/operator/join/keyed_join.rs:300-377 | The join of keyed streams meets the same specification, for the inner variant |
| SortMergeJoin.CursorDiscards | src/operator/join/local_sort_merge.rs:96-107 | The last left key alone tells whether the right item about to be discarded has had a partner |
| SortMergeJoin.SortMergeJoin.Advance | src/operator/join/local_sort_merge.rs:109-152 | Keeps the tuples made and the two cursors together the join of the round, makes progress, and leaves tuples unless both sides are used up |
| SortMergeJoin.RunSortMergeJoin | src/operator/join/local_sort_merge.rs:96-219 | Meets the same specification as the hash join, on every stream |
| JoinSpec.RoundsAreUnique | src/operator/join/mod.rs:28-42 | The specification determines the output but for its order, even if the items of a round arrive in another order |
| JoinSpec.JoinHas | src/operator/join/mod.rs:28-54 | An output is a join if and only if it has these tuples by their form: the pairs of a key as often as the two sides have them; in left and outer joins a left item without partner as often as it occurs, in outer joins a right one too; and no other tuple |
| JoinsAgree.RunJoins | src/operator/join/local_sort_merge.rs:96-219 | Hash join, sort-merge join and keyed join on inputs that differ only in the order of arrival have outputs that differ only in their order, round by round |
| JoinDistribution.HashedJoinIsJoin | src/operator/join/ship.rs:76-80 | With both sides sent by the hash of their keys through the ends of their blocks, the joins of the replicas together are the join of all the items |
| JoinDistribution.BroadcastJoinIsJoin | src/operator/join/ship.rs:124-129 | With the left side forwarded and the right one broadcast, so are they for inner and left joins |
| JoinDistribution.OuterBroadcast | src/operator/join/ship.rs:124-129 | For outer joins they are if and only if each right key is lacked by the left parts of as many replicas as the join itself counts: all left parts have the key if any has it, and there is one replica if none has |
| Routing.SetupSenders | src/operator/end.rs:119-145 | The senders are sorted, and grouped by block (each alone for a broadcast), whatever order the map of blocks yields |
| Routing.GroupByBlock | src/operator/end.rs:126-135 | Every block has the positions of its senders, in order |
| Routing.ReplicaIsChosen | src/operator/end.rs:209-217 | The j-th replica of a block gets exactly the messages whose index is j modulo the number of replicas, whatever order the network lists the connections in |
| Routing.ReceiverIsSame | src/operator/end.rs:209-217 | The receiver of an index does not depend on the replica or the block that sends |
| Routing.ReachedAreConnected | src/scheduler.rs:280-304 | The receivers a replica is connected with are those the scheduler connects, in the order of coordinates |
| Routing.ShuffleConnectsAll | src/scheduler.rs:280-304 | With a shuffle every replica is connected with every other one; without, or fragile, with the one of the same host and number, or the only one |
| Routing.OnlyOneReceiver | src/block/next_strategy.rs:18-24 | A connection without shuffle has a receiver if and only if the next block has one replica or has the corresponding one, and never two |
| EndOfBlock.AllTargetsSend | src/operator/end.rs:185-217 | Of every element, each sender gets one copy or none, as the strategy, the broadcast of control elements and the feedback rule demand |
| EndOfBlock.End.Next | src/operator/end.rs:185-242 | Appends to each batcher exactly what is for it, and flushes all batchers at the end of batches, rounds and the stream |
| EndOfBlock.RunEnd | src/operator/end.rs:185-242 | For a whole stream and any timing of the flushes, the batches for a receiver hold exactly its messages, in order, and are neither empty nor too long |
| EndOfBlock.RoundsSent | src/operator/end.rs:185-242 | The messages for a receiver have as many rounds as the stream, each with the items for it |
| TimedDelivery.ItemInGroup | src/operator/end.rs:209-217 | Of every group, exactly the sender at the index modulo the size of the group gets an item, with or without timestamp, and gets it as it is |
| TimedDelivery.SignalsToAll | src/operator/end.rs:190-208 | Watermarks and ends of rounds go to every sender, Terminate to all but the head of the loop, the end of a batch to none |
| TimedDelivery.TimedRoundsSent | src/operator/end.rs:185-242 | Round by round, a receiver gets the items for it together with their timestamps, among items that have one and items that have none |
| Delivery.SentByKey | src/block/next_strategy.rs:25-26 | By key: all the items of a key, from all replicas, go to the replica of its hash and to no other |
| Delivery.SentToAll | src/block/next_strategy.rs:27-28 | By broadcast: every replica gets all the items |
| Delivery.SentToOne | src/block/next_strategy.rs:18-24 | Without shuffle: all the items of a replica go to one and the same receiver |
| TimedDelivery.TimedByKey | src/block/next_strategy.rs:25-26 | The same by key for items with timestamps: they go with them to the replica of the hash and to no other |
| TimedDelivery.TimedToAll | src/block/next_strategy.rs:27-28 | The same by broadcast |
| TimedDelivery.TimedToOne | src/block/next_strategy.rs:18-24 | The same without shuffle |
| Batching.Batcher.Enqueue | src/block/batcher.rs:79-105 | The message is the last one; the batch goes out at once in single mode, when it has its size, or when an adaptive one is too old, and otherwise stays |
| Batching.Batcher.Flush | src/block/batcher.rs:108-122 | Nothing stays behind and nothing is lost |
| Batching.Batcher.TryFlush | src/block/batcher.rs:125-152 | A batch the channel has no room for stays where it was; the timer changes no message and no order |
| Batching.Batcher.End | src/block/batcher.rs:155-162 | All messages are out |
| Batching.RunBatcher | src/block/batcher.rs:79-162 | For all calls, timer flushes and full channels, the batches concatenated are the messages, and none is empty or too long |
| Timers.NoTaskIsOrphaned | src/block/batcher.rs:321-366 | In every interleaving of registrations, cancellations and timer threads, each task that is not cancelled is in the table, some thread serves or is about to serve the table, and any thread that wakes up flushes the task |
| Timers.LiveThreadsWake | src/block/batcher.rs:321-366 | As long as there is such a task, no thread that lives leaves its loop: its own steps bring it back to sleep |
| StreamRounds.ChunksAreStream | src/operator/mod.rs:126-158 | The rounds of a stream, each with its end, and what comes after the last end are the stream, and there is no other end of a round |
| StreamRounds.RoundsAreItems | src/operator/mod.rs:126-158 | The items of a round are exactly its plain elements, in their order |
| StreamRounds.TimedRoundsAreItems | src/operator/mod.rs:126-158 | The timed items of a round are exactly its elements with timestamps, in their order |
| StreamRounds.InOrderMeans | src/operator/mod.rs:126-158 | A stream is in order if and only if each of its times has 64 bits and is not below any earlier time of its round, or in the weaker sense any earlier watermark of it |
| StreamRounds.HonouredMeans | src/operator/mod.rs:142-144 | Watermarks are honoured if and only if no item comes after one of its round with a time less than or equal to it |
| StreamRounds.SidesAreKept | src/operator/join/local_hash.rs:202-277 | The sides of a round of a join have exactly its left and its right items, in order, and have ended exactly if their ends have come |
| Reorder.Reorder.Next | src/operator/reorder.rs:107-146 | Emits what keeps the output sorted and complete, and makes progress |
| Reorder.RunReorder | src/operator/reorder.rs:107-146 | Every round comes out as its stable sort by time, an unfinished one as the beginning of it; other elements keep their order; no item comes after a watermark above it, and none after an equal one if the input honours its watermarks strictly |
| IntervalJoin.LimitsAreExact | src/operator/interval_join.rs:84-92 | The checked limits admit the right items they should if and only if the lower limit does not overflow upwards or the interval ends before time 0: with a negative lower bound and a large timestamp, the limit becomes the least number and the whole past is admitted |
| IntervalJoin.NegativeLowerBoundFails | src/operator/interval_join.rs:84-120 | A left item at the greatest timestamp with the bounds -1 and 1 should match nothing, but is joined with a right item of time 0 |
| IntervalJoin.IntervalJoin.Advance | src/operator/interval_join.rs:84-135 | Joins the left items whose interval is over, and keeps the stored items sufficient for the others |
| IntervalJoin.RunIntervalJoin | src/operator/interval_join.rs:84-191 | On every stream in the order of time whose limits fit, each round becomes its pairs, in order, although right items are dropped early; the assertions never fail |
| IntervalPairs.PairsAreMade | src/operator/interval_join.rs:84-135 | By places in the round: the tuples are exactly those of the pairs of a left and a right item of one key whose times differ by no more than the bounds, ordered by left and then by right item, each with the later of the two times |
| ReorderedJoin.RunReorderedJoin | src/operator/mod.rs:1738-1755 | With Reorder before it, on every stream that honours its watermarks and whose limits fit, each tuple comes out as often as there are pairs within the bounds that make it |
| ReorderedJoin.CountPermutes | src/operator/mod.rs:1738-1755 | That number does not depend on the order of arrival |
| IntervalPairs.CountIsOfPairs | src/operator/interval_join.rs:84-135 | It is how often the tuple occurs among those of such pairs of the round as it arrived |
| KeyedFold.RunKeyedFold | src/operator/keyed_fold.rs:89-179 | Each round becomes one element for each of its keys, with the fold of the key's values in order and the greatest of their timestamps, and then the greatest watermark; keys without timestamps stay without |
| FoldedRounds.FoldedMeans | src/operator/keyed_fold.rs:89-179 | By places in the round: the greatest of its watermarks comes last if it has any, each key that occurs has exactly one element and no other element comes out, with the fold of the values of the key in their order and the greatest of their timestamps |
| FoldedRounds.TimeIsGreatest | src/operator/keyed_fold.rs:137-141 | The timestamp kept for some values is one of theirs and no less than any; there is none only if no value has one |
| FoldedRounds.MarkIsGreatest | src/operator/keyed_fold.rs:128-130 | The watermark kept is one of the round and no less than any |
| FoldSteps.FoldAllSteps | src/operator/keyed_fold.rs:88-106 | A fold is reached from the initial accumulator by folding one value after the other |
| GroupBy.RunUntimedFold | src/operator/keyed_fold.rs:89-179 | Without timestamps, the items of a round of the output are one for each key |
| GroupBy.GroupByFold | src/operator/mod.rs:822-854 | However the items are spread over the replicas and the local folds arrive, each key comes out once in the whole block, with the fold of all its values |
| GroupBy.GroupByReduce | src/operator/mod.rs:1693-1722 | For an associative and commutative operation, so does the reduction, and unwrapping it never panics |
| TwoPasses.FoldScan | src/operator/mod.rs:856-907 | The iteration has exactly two rounds: the first folds the items of all replicas, the second maps each item with that total; it panics only where the map does |
| TwoPasses.ReduceScan | src/operator/mod.rs:909-944 | For an associative and commutative operation nothing panics, even if some or all replicas are empty, and each item is mapped with the reduction of all of them, whatever order the deltas come in |
| ScanJobs.FoldScanOutputs | src/operator/mod.rs:856-907 | In every interleaving on any number of replicas and hosts, what a replica outputs for its m-th run are its own items of that run, mapped with the global fold of the local folds of all replicas, each taken once |
| ScanJobs.ReduceScanOutputs | src/operator/mod.rs:909-944 | In every interleaving, for an associative and commutative operation, nothing panics, and the items are mapped with the reduction of the items of all replicas in that run |
| FoldSteps.MappedAt | src/operator/mod.rs:856-907 | Item by item: the j-th result is that of the j-th item with the total, and there are results if and only if no item panics |
| FoldSteps.ResultsAt | src/operator/mod.rs:909-944 | In reduce_scan, the j-th result is that of the j-th item with the reduction |
| Layers.LayeredIsValid | src/operator/iteration/iterate.rs:400-525 | A job whose blocks follow each other, shuffled or not, with the feedback from the last block but one and the fold in the last one, has the properties the protocol relies on |
| DeltaIterate.EndsWithOutputs | src/operator/iteration/iterate_delta.rs:104-190 | No message is of an unexpected kind before the end, and the run ends without a panic and with outputs alone if and only if the limit is at least two, or else the body makes no delta of the first updates; where overflows are checked, if and only if the limit is at least two or there is no input |
| DeltaIterate.TooFewRounds | src/operator/iteration/iterate_delta.rs:104-190 | With a limit below two, the one round ends with exactly the deltas the body makes of the first updates, or panics if overflows are checked and there is any input |
| DeltaIterate.OneRoundFails | src/operator/iteration/iterate_delta.rs:118-190 | With limit 1 and one item, a whole run is left with a delta that cannot be unwrapped as an output |
| DeltaIterate.StopsWhenNothingMatters | src/operator/iteration/iterate_delta.rs:132-187 | When it stops: the last round is the first one, after the first, that finds among its messages no delta that matters or that is the last the limit allows |
| DeltaIterate.NothingToDo | src/operator/iteration/iterate_delta.rs:132-187 | Without input it stops after two rounds |
| DeltaIterate.RoundIsOfUpdates | src/operator/iteration/iterate_delta.rs:118-160 | Every round before the last is the body applied to one update for each message, made of the state of the key with the message processed |
| DeltaIterate.EndsWithOutputsOfKeys | src/operator/iteration/iterate_delta.rs:104-190 | If the body keeps the keys, a run ends well if and only if the limit is at least two or there is no input |
| DeltaIterate.OneOutputPerKey | src/operator/iteration/iterate_delta.rs:104-190 | If the body keeps the keys, every input message's key has its output at the end |
| DeltaIterate.OutputsAreOfStates | src/operator/iteration/iterate_delta.rs:118-145 | The output of a key is made of the state that its own messages make one after the other, its input and then its deltas of every round but the last, whatever the other keys do |
| ConnectedComponents.ComponentsAreFound | examples/connected_components.rs:48-98 | When a round changes nothing, the component of every vertex is the least vertex it can be reached from |
| ConnectedComponents.RoundsAreBounded | examples/connected_components.rs:48-98 | Every round that continues lowers the sum of the components |
| ConnectedComponents.EnoughRounds | examples/connected_components.rs:48-98 | Allowed more than n(n - 1)/2 rounds, every run ends with the right components, whatever orders the deltas come in |
| ConnectedComponents.ComponentsAreClasses | examples/connected_components.rs:48-98 | With the pairs of the file taken in both directions, two vertices end in the same component if and only if they are connected |
| ComponentJobs.DeltasAreChanges | examples/connected_components.rs:61-82 | A round of the distributed body, with its two shuffles and its local and global minima, gives every vertex exactly the change that the round on one machine gives it, once |
| ComponentJobs.ComponentsInEveryRun | examples/connected_components.rs:48-98 | In every interleaving on any number of replicas and hosts, with any hash function, each result of the iteration has for every vertex the least vertex reachable from it, and equal components for connected vertices only |
| TransitiveClosure.ClosureIsFound | examples/transitive_closure.rs:25-54 | When two successive counts agree, the paths are exactly the pairs of different vertices of which the first reaches the second |
| TransitiveClosure.RoundsAreBounded | examples/transitive_closure.rs:25-54 | A run that continues has found at least one path per round |
| TransitiveClosure.EnoughRounds | examples/transitive_closure.rs:25-54 | Allowed more rounds than there are pairs of vertices, every run ends with the closure |
| Topology.NetworkTopology.Connect | src/network/topology.rs:433-475 | The table of channels holds exactly the connections registered |
| Topology.NetworkTopology.Build | src/network/topology.rs:501-530 | Every demultiplexer gets the port that follows those of the demultiplexers before it on its host |
| Topology.HostsAgree | src/network/topology.rs:501-530 | Hosts that have registered the same connections in any order assign the same ports |
| Topology.PortsAreConsecutive | src/network/topology.rs:501-530 | The ports of a host are all different, and are the first ones from its base port on |
| Topology.PortsAreInOrder | src/network/topology.rs:501-530 | On a host, a demultiplexer has a lower port than another exactly if its block, or for the same block the block before it, has the lower number |
| Topology.CountClients | src/network/topology.rs:279-327 | A demultiplexer waits for as many clients as there are blocks on other hosts with a connection to it |
| Topology.ExpectedAre | src/network/topology.rs:279-354 | Who is waited for, and which hosts connect, by the connections that were registered |
| Topology.MakeMultiplexers | src/network/topology.rs:329-354 | A host makes exactly one multiplexer for each remote demultiplexer that a connection of its replicas leads to, if the connection is not fragile or its sender is asked for by itself |
| Topology.ClientsAreExpected | src/network/topology.rs:279-354 | As many clients connect as are waited for if and only if no host has only fragile connections to the demultiplexer whose senders nobody asks for |
| Topology.FragileClientIsMissed | src/network/topology.rs:279-327 | One fragile connection between two hosts whose sender is not asked for: one client is waited for, and none connects |
| Framing.HeaderRoundTrip | src/network/sync/remote.rs:18-36 | A header whose numbers fit comes back from its twenty bytes, and any twenty bytes come back from their header |
| Framing.HeaderBytes | src/network/sync/remote.rs:18-36 | Size, replica and sender stand in four, eight and eight bytes, the least significant first |
| Framing.Sender.Send | src/network/sync/remote.rs:43-79 | Exactly header and message are written, whatever the scratch buffer held |
| Framing.Receiver.Receive | src/network/sync/remote.rs:85-128 | Reads one message and not a byte of the next, or tells an end before a header from an end within a message |
| Framing.FramesAreRead | src/network/sync/remote.rs:85-128 | Any sequence of messages comes back in order with its endpoints, whatever follows it |
| Framing.CutIsPrefix | src/network/sync/remote.rs:85-128 | If the connection is cut at any byte, exactly the complete messages are received, and it is an error if and only if the cut is behind a header and before the end of its message |
| Framing.RunConnection | src/network/sync/remote.rs:43-128 | From one end of the connection to the other, messages arrive as they were sent |

## Left out

- IterationTheorems.NoDeadlock: channels are unbounded here. A comment at src/operator/iteration/replay.rs:121 asks whether Replay can block on its answer while its input fills a channel; this is not decided.
- HashJoin.RunHashJoin: the streams must be those `Start` yields, in which both sides end in every round, each after its items; `Start` itself is not modelled. The same is true of RunKeyedInnerJoin and RunSortMergeJoin. JoinKeyedOuter (src/operator/join/keyed_join.rs:81-239) has the same fields and branches as the local hash join but for the keyers, so that RunHashJoin stands for both. Timestamped items, on which these operators panic, are not in the streams.
- JoinDistribution.HashedJoinIsJoin: a round of the join consists of that round of all the replicas before it; that `Start` merges the rounds so is taken from its contract. The joins of the replicas are any outputs that meet the specification of the operators. The same is true of the broadcast joins and of GroupByFold and GroupByReduce.
- JoinDistribution.BroadcastJoinIsJoin: the left side must have a receiver without shuffle for each replica; otherwise the original panics while it sets up the senders.
- IterationSources.CallIterate: the bound on the calls excludes one that would block for ever because neither the feedback nor the answer of a round comes; no feedback of a round arrives before that of the round before is swapped in, which is IterationTheorems.FeedbackIsOneRound.
- IntervalJoin.RunIntervalJoin: left items whose limits do not fit are excluded, for LimitsAreExact shows that the operator then admits the wrong items. Items without timestamps, times before 0 and streams out of order are excluded because the operator panics on them.
- ReorderedJoin.RunReorderedJoin: excludes the same left items.
- Reorder.RunReorder: a stream with items below a watermark before them breaks the contract of watermarks; what comes out of it is not described.
- GroupBy.GroupByFold: only for items without timestamps; the global fold must merge local folds, and the order of the values of a key must not matter, which is what the distributed form needs to agree with the plain one.
- DeltaIterate.EndsWithOutputs: the body must send nothing when it gets nothing, and all the messages of a key come to the same replica. The limit is a number of 64 bits.
- DeltaIterate.OneOutputPerKey: the body has to keep the keys; a body that drops or invents some does so to the outputs as well.
- ConnectedComponents.ComponentsAreFound: the data of a round is a set; repeated changes do not matter to a minimum. The same is true of the paths in TransitiveClosure, which the original makes different from each other explicitly.
- Topology.NetworkTopology.Build: the ports must fit into 16 bits; the original overflows otherwise.
- Framing.RunConnection: messages of four gigabytes or more are excluded, since the original panics on their size; the encoding of the message itself is any function with an inverse.
- Timers.NoTaskIsOrphaned: one period of time; a thread whose table was removed and made again by a new registration lives on beside the new thread, and the model shows no harm in it but does not bound their number.
- EndOfBlock.RunEnd: the destinations to be ignored are removed before; random choices are numbers given with the elements; failures to send are not modelled.
- EndOfBlock.RoundsSent: not for random choices, where the numbers drawn decide, nor for the end of a feedback loop, which drops its Terminate; RunEnd and TimedDelivery.ItemInGroup cover both. It speaks of items without timestamps, TimedDelivery.TimedRoundsSent of both kinds.
- ComponentJobs.ComponentsInEveryRun: the edges are in the closure of the job, not a stream that is joined from outside the loop; the parts of a local minimum are merged before the shuffle, as group_by_min_element does. ScanJobs and ComponentJobs are stated for blocks of equally many replicas.
- The elapsed time and the room in a channel are inputs of the batcher; clocks are not modelled.
- `Start` with its watermark frontier, windows, sources, sinks, caches, routing by predicate and zip: not modelled.
- LimitSorted, which emits one more round end than it receives, and unique_assoc_by_key: not modelled.
- Map, filter, flat map, rich map and the other operators on single elements: they would only add easy members.
- Nested iterations as such: a run of the inner loop is one of the many runs of IterationRuns, with the input that comes in for it.
- Threads, sockets, the asynchronous variants, ssh, configuration, the scheduler's choice of hosts, the profiler and the tracing: not modelled.
