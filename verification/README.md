# A verified model of LLMSimulator

LLMSimulator plays a transformer served on a cluster of devices: a scheduler forms batches, every device
walks through its module graph, a time board records what each module cost, and scripts read the printed report.
This project models that machinery in Dafny and proves what the code around the cost formulas relies on. Times,
energies and costs are `real`, counters are unbounded integers, and the cost of a leaf module is an arbitrary
non-negative input.

`dafny verify dfyconfig.toml` checks everything. Objects that the simulator updates in place are classes; their
methods are proved equal to functions on values, and the theorems are about those functions.

- **Batching.** `Batching` is one round of the scheduler on values; `Sequences` and `SchedulerObjects` are the
  objects, tied to it method by method. `Admission`, `Progress`, `Kept`, `Conservation`, `Lifecycle`, `Latencies`
  and `NoStarvation` prove, for runs of any length, what holds in every reachable state, where each sequence is, what
  is reported about it with which latencies, and how long it can take; `Assigned` says what a round hands out and to
  which batch, `DecodeMode` what differs there, and `Stalls` when a configuration never processes a token. New
  sequences are an input of each round, so the theorems cover synthetic and traced requests alike.
- **Experts.** `GreedySplit`, `ExpertSplit`, `GroupSplit` and `QuarterBound` cover the division of experts between two
  processors, with costs that `SplitFigures` states in the hardware's figures, `ExpertTokens` (with `Sums`) the counts of routed tokens, and `MoEScatter` the tokens devices exchange.
- **Devices.** `ModuleGraph` is polled execution of position-aligned programs together with its lock-step reference.
  `Polling` and `Feeding` prove which programs polling brings to their end, `LockStep` that it refines the reference,
  `OlderTensors` what happens to sync nodes that wait for an older tensor, and `Cluster` is the object that does it.
- **Stamps and reports.** `Trees`, `StampBoard`, `StampQuery`, `TimeBoard`, `Timeline` and `Intervals` cover recording,
  searching and printing; `TreeParser`, `TreeBuilder`, `LayerSlice` and `Report` cover reading the report back.
- **Memory.** `AddressMap`, `Allocation`, `CommandCount` and `Commands` cover addresses, placement, commands and their
  counts; `NearbankPipeline` and `NearbankFigures` the latency formula of a near-bank unit.

Polling ends for every program whose nodes wait for tensors made earlier. Its clocks are those of the reference if
every sync node is timely: either no sync node lies between its tensor's first producer and itself, or it comes right
after a sync node that is so, on another tensor, joins devices that one joins, and no device takes time in between.
The attention and feed-forward all-reduces and the scatter of an expert layer are of the first kind; the two
all-reduces of an expert layer wait for the layer's input right after a Sync module and are of the second.

Findings about the code:

- A sync node that waits for an older tensor in any other way breaks its barrier: `ReusedTensorBreaksBarrier` lets two
  devices meet twice on one tensor. The work in between is added up instead of taking the maximum, and a flag stays up
  for the next run, where its device then passes the first sync node on that tensor without waiting
  (`RaisedFlagSkipsBarrier`).
- If `max_process_token` is smaller than the number of sequences that prefill in every batch that prefills, no token is
  ever assigned, and all timed rounds are skipped.
- `checkListReady` looks at the dependency list whatever list it is given (src/module/module_graph.cpp:45-52), so a
  leaf with several inputs runs as soon as its input list is not empty. The model does the same.
- `set_status` computes start and end by processor and then overwrites both (src/module/timeboard.cpp:20-42).
- The closed form for reads counts one command more than the loop whenever cube 0's share is a multiple of the number
  of channels, and an empty tensor leaves the previous counts in place.
- `vecToAddrLOGIC` counts cubes with another constant than `addrToVecLOGIC`; they are inverse exactly when the constants
  agree, apart from the first bundle of each cube. All preset configurations give both the same value;
  `LogicMapsDisagree` changes one and names an address that is not recovered. Nothing calls `vecToAddrLOGIC`, and no
  configuration file sets these constants, so this matters only to new code.
- In decode mode the flag for the prefill stage is never cleared: the first token is never reported, and the reported
  first-token time grows as the end time does.
- The send loop of a scatter takes nodes to have eight devices whatever the configuration says; the receive loop does
  not. `SmallNodesDisagree` gives a token that is sent within a node and not received within one.
- A device that sends nothing in a scatter returns before it counts what it receives, so totals balance exactly when no
  such device receives anything; `SilentDeviceIsNotCharged` gives two devices for which they do not.
- The layer script goes on at a second decoder line whatever its indentation; the cut is the first decoder's subtree
  exactly when no line inside that subtree ends the layer. `NestedDecoderIsCutShort` gives three lines for which it is
  not.
- The comments of the near-bank unit give the processing time as whole row buffers and the general formula for a single
  buffer too; the code takes the bytes moved, and overlaps fill and processing for a single buffer.

## Model

| member | source | states |
|---|---|---|
| GreedySplit.GreedyStopIsPrefixOptimal | src/module/route.cpp:54-67 | Stopping at the first item that does not lower the makespan beats every other prefix of the list, for all positive costs. |
| GreedySplit.WeightedExchange | src/module/route.cpp:54-67 | Weighing both processors by the costs of the crossing item, no assignment weighs less than the split at that item. |
| GreedySplit.CrossingBounds | src/module/route.cpp:54-67 | Every assignment needs at least the smaller side of the split just before or after the crossing item. |
| GreedySplit.GreedyIsTwoApproximation | src/module/route.cpp:34-68 | Along a list with rising cost ratios the greedy split finishes within twice the time of every assignment of single items. |
| ExpertSplit.RatioFallsWithTokens | src/module/route.cpp:38-46 | With the high balance point at or above the low one, a heavier expert is never worse suited to the high processor. |
| ExpertSplit.SplitIsTwoApproximation | src/module/route.cpp:34-68 | For every hardware configuration, every sorted order of the experts and every set of experts, the greedy makespan is at most twice that set's. |
| ExpertSplit.LowIsCheaper | src/module/route.cpp:38-46 | With the high balance point below the low one, no expert is faster on the high processor, for every whole bandwidth factor. |
| GreedySplit.CheapLowIsTwoApproximation | src/module/route.cpp:54-67 | When no item is faster on the high processor, the greedy split is within twice the time of every assignment. |
| ExpertSplit.GetIdxHighOptimal | src/module/route.cpp:34-68 | For every configuration, with costs that `SplitFigures` states in the hardware's figures, the returned ids are the head of a sorted order at which the loop stops; they are distinct and in range, carry the largest loads, are best among all heads, and within twice the time of every assignment. |
| ExpertSplit.TotalLowTime | src/module/route.cpp:43-47 | The first loop yields the low processor's time for all experts, in any order of summation. |
| ExpertSplit.MakespanOfOrder | src/module/route.cpp:49 | Sorting does not change the completion time of an assignment. |
| ExpertSplit.HeadHasLargestLoads | src/module/route.cpp:49-62 | The ids at the head of a sorted order are distinct and exist, and no other expert has more tokens than one of them. |
| SplitFigures.HighTimeInFigures | src/module/route.cpp:36-59 | An expert takes the high processor one unit of time up to its balance point; beyond it, time times peak operations is tokens times three quarters of the bandwidth. |
| SplitFigures.LowTimeInFigures | src/module/route.cpp:45-61 | An expert takes the low processor 1 / logic_x up to its own balance point; beyond it, time times logic_x times the balance point is three quarters of the tokens. |
| SplitFigures.SmallExpertCosts | src/module/route.cpp:45-61 | An expert below both balance points takes the high processor logic_x times as long as the low one. |
| SplitFigures.SmallExpertsSplit | src/module/route.cpp:54-67 | Of m such experts the greedy loop moves on as long as one more on the high processor finishes before the rest on the low one: while (j + 1) times logic_x is less than m - j. |
| GroupSplit.GetIdxHigh | src/module/route.cpp:70-127 | Up to four experts are split as above, with all that is promised there; more that do not divide by four fail; otherwise whole quarters are chosen, up to where the loop stops, best among all prefixes of the sorted quarters, with distinct ids in range. |
| GroupSplit.SplitGroups | src/module/route.cpp:106-125 | The greedy loop over quarters stops where no prefix of the order is better. |
| QuarterBound.QuarterSplitIsClose | src/module/route.cpp:70-127 | The makespan of the split by quarters is at most twice that of every assignment of single experts if the high balance point is below the low one, and otherwise at most four times that of every assignment of whole quarters. |
| QuarterBound.EvenIsClose | src/module/route.cpp:91-117 | However the tokens of a quarter are spread over its experts, it costs at least as much as an even spread and at most twice as much, on either processor. |
| GroupSplit.CutIntoGroups | src/module/route.cpp:91-103 | The quarters are runs of neighbours that make up the list, with the low processor's total. |
| GroupSplit.CutIsUnique | src/module/route.cpp:91-103 | A list can be cut into runs of one length in only one way. |
| SplitFigures.TokensOfRange | src/module/route.cpp:20-32 | The load by which quarters are sorted is the sum of the tokens of the experts in that run of the list. |
| ExpertTokens.Batch.UpdateExpert | src/scheduler/sequence.cpp:152-206 | The counts become, for each expert, how often the routes of all processed tokens name it. |
| ExpertTokens.CountIsMultiplicity | src/scheduler/sequence.cpp:152-206 | Those counts are the multiplicities of the experts among all that are named for the batch's tokens. |
| ExpertTokens.AllSum | src/module/route.cpp:172-189 | Over all experts the counts of all batches add up to processed tokens times top_k, for every routing. |
| ExpertTokens.AggregateExpert | src/module/route.cpp:149-190 | Every batch ends with the counts of all batches and a local copy of its own, and the asserted total holds. |
| ExpertTokens.LocalsSumUp | src/module/route.cpp:165-179 | For every expert the local copies add up to the count that every batch holds. |
| MoEScatter.Send | src/module/communication.cpp:118-156 | A device sends its group's tokens for the experts of all devices outside its group; those within the node are the ones for devices whose number, divided by eight, is its node. |
| MoEScatter.Receive | src/module/communication.cpp:193-224 | A device receives the tokens of every other group for its experts; those within the node come from groups whose first device is in its node. |
| MoEScatter.EveryExpertIsCounted | src/module/communication.cpp:140-153 | Over all devices, a group's tokens for each expert are counted e_tp_dg times; experts beyond a whole share for every device are not counted. |
| MoEScatter.SentAndKeptBack | src/module/communication.cpp:127-156 | What a device sends and what its group has for its own devices are all the group's tokens, e_tp_dg times. |
| MoEScatter.ReceivedAndKeptBack | src/module/communication.cpp:200-224 | What a device receives and what its own group has for it are the tokens of all groups for its experts. |
| MoEScatter.SentIsReceivedManyTimes | src/module/communication.cpp:127-224 | Over all devices, raw tokens sent are ne_tp_dg times raw tokens to be received, for every table of counts. |
| MoEScatter.WithinIsReceivedManyTimes | src/module/communication.cpp:127-224 | The same holds within nodes when a node has eight devices and no group spans two nodes. |
| MoEScatter.SmallNodesDisagree | src/module/communication.cpp:143-212 | With two nodes of one device each, one token is sent within a node and none is received within one. |
| MoEScatter.ChargedBalances | src/module/communication.cpp:166-224 | With the early return, the totals balance exactly if no device that sends nothing receives anything. |
| MoEScatter.SilentDeviceIsNotCharged | src/module/communication.cpp:166-170 | Two groups of one device each, the second without tokens: the totals do not balance. |
| MoEScatter.Forward | src/module/communication.cpp:100-224 | A device that sends nothing counts nothing received; otherwise both loops run. |
| MoEScatter.Scatter | src/module/communication.cpp:100-224 | The loops on all devices yield those totals, balanced exactly under that condition. |
| Feeding.ReadyIsMade | src/module/module_graph.cpp:27-43 | A tensor is ready on a device that has come to a node exactly if it is the model's input or an output of a module before that node, whether that module takes one tensor, a list, or synchronizes. |
| Feeding.PollStopsWhereInputIsMissing | src/module/module_graph.cpp:54-157 | A poll passes nodes as long as each finds its input made by earlier nodes, on every member for a sync node, or holds a list that is not empty; it stops at the first node that does not. |
| Feeding.FedWhenMade | src/module/module_graph.cpp:45-72 | The lists that the theorems on polling ask for are those in which every node's input is made before it. |
| Feeding.FinishesExactlyWhenFed | src/hardware/cluster.cpp:1084-1092 | Polling all devices often enough, in any order, brings every one to the end of its list if and only if every node's input is the model's input or made by an earlier node, and no list of inputs is empty. |
| LockStep.PollKeepsInv | src/module/module_graph.cpp:149-157 | For timely sync nodes, one poll keeps the invariant that ties clocks, flags and positions to the reference, and leaves the device blocked or done. |
| LockStep.FirstSync | src/module/module_graph.cpp:77-90 | The member that finds all tensors ready first sets every member's clock to the group's latest in the reference and flags the others' copies; it goes on itself, and nobody outside the group changes. |
| LockStep.SyncReleases | src/module/module_graph.cpp:77-90 | After one member has passed, exactly the members of its group are newly released, and only from that node. |
| LockStep.ReleasedSync | src/module/module_graph.cpp:91-93 | A released member is ready, takes that node's flag down and goes on from the group's latest clock, without touching any other device. |
| LockStep.MembersHaveGathered | src/module/module_graph.cpp:45-62 | When a timely sync node's tensor is ready on every member and nobody has passed, all members stand there or are released from the sync node right before, all with the reference's clocks on arrival. |
| LockStep.NothingIsOwed | src/module/module_graph.cpp:74-97 | No flag is up on a device at a sync node that nobody of its group has passed. |
| LockStep.PolledRefinesLockStep | src/module/module_graph.cpp:54-157 | For timely sync nodes, in whatever order devices are polled, once all are done their clocks, counters and recorded events are those of the lock-step reference, and all flags are down. |
| LockStep.RepeatedRunsRefineLockStep | src/hardware/cluster.cpp:1084-1092 | Of any runs one after another on the same devices, each with timely sync nodes and its own work and polling order, every one ends in its own reference, and all flags are down after it. |
| OlderTensors.AllReduceFollowsSync | src/module/expert.cpp:183-194 | An all-reduce right after a Sync module is timely, however old its tensor is, if it joins devices that the Sync module joins and the Sync module takes no time. |
| OlderTensors.SecondBarrierIsNotTimely | src/module/module_graph.cpp:74-97 | Two barriers on one tensor with work in between: the second is not timely. |
| OlderTensors.ReusedTensorBreaksBarrier | src/module/module_graph.cpp:74-97 | There the run ends with the sum of both devices' work on both clocks where the reference has the maximum, equal exactly if one of them is zero, and with a flag up. |
| OlderTensors.LoweredFlagMakesBarrier | src/module/module_graph.cpp:77-91 | A device that passes a sync node with its flag down takes the latest clock of its group, to which all members' clocks are raised with their flags up; nobody else changes. |
| OlderTensors.RaisedFlagSkipsBarrier | src/module/module_graph.cpp:91-93 | With its flag up it goes on from its own clock, waiting for nobody, takes the flag down and changes no other device. |
| Polling.PollTracks | src/module/module_graph.cpp:149-157 | A poll moves its own device only, and only forward. |
| Polling.LeastDeviceMoves | src/module/module_graph.cpp:27-72 | If every node's input is made earlier, a poll of an unfinished device that nobody is behind always moves it. |
| Polling.PassMakesProgress | src/hardware/cluster.cpp:1087-1091 | Then a pass over the devices in any order moves at least one that is not done: polling cannot deadlock. |
| Polling.FairPassesFinish | src/hardware/cluster.cpp:1087-1091 | Then as many passes as there are nodes on all devices finish every device. |
| Cluster.Device.Restart | src/hardware/cluster.cpp:44-51 | Restarting resets place, clocks, tensors and events, but not the sync flags. |
| Cluster.Device.StampCurrent | src/module/module_graph.cpp:177-189 | A node is stamped once, however often running it is attempted. |
| Cluster.Cluster.SyncDevices | src/module/module_graph.cpp:74-97 | The loops over the members have the effect of the synchronisation step. |
| Cluster.Cluster.CheckListReady | src/module/module_graph.cpp:45-52 | The loop tells whether the tensor is ready on all devices of the list. |
| Cluster.Cluster.RunNode | src/module/module_graph.cpp:27-72 | Running a node fails exactly when it is blocked, and otherwise has the effect of the step, of which `Feeding` says what it needs and what it makes ready. |
| Cluster.Cluster.RunDevice | src/module/module_graph.cpp:149-157 | The loop of one device has the effect of one poll, which ends where `Feeding.PollStopsWhereInputIsMissing` says. |
| Cluster.Cluster.Pass | src/hardware/cluster.cpp:1087-1091 | One pass moves at least one device that is not done, and keeps clocks and flags right if sync nodes are timely. |
| Cluster.Cluster.Run | src/hardware/cluster.cpp:1084-1092 | The polling loop ends whenever every node's input is the model's or made by an earlier node, whatever flags were left up; with timely sync nodes and flags down before, every device matches the reference and all flags are down again. |
| Cluster.Cluster.RunAll | src/hardware/cluster.cpp:1084-1092 | Runs with timely sync nodes may follow each other on the same devices, with new work each: every one ends in its own reference. |
| StampBoard.ReplayCall | src/module/timeboard.h:18-27 | The events of one call, nested to any depth, add exactly its tree of stamps below the current stamp and return to it. |
| StampBoard.ReplayFresh | src/module/timeboard.h:84-105 | The events of any calls leave a fresh board at its top stamp, with one tree of stamps for each call. |
| TimeBoards.TimeBoard.PushTimestamp | src/module/timeboard.h:90-93 | Pushing links one new stamp below the current one and moves the cursor to it. |
| TimeBoards.TimeBoard.PopTimestamp | src/module/timeboard.h:95-97 | Popping closes the current stamp, whose start, end and differences `Intervals` states for the stamps of a run, and moves the cursor to its parent. |
| TimeBoards.TimeBoard.Reset | src/module/timeboard.h:99-105 | Resetting drops everything below the top stamp and keeps the top stamp's readings. |
| TimeBoards.TimeBoard.FindStamp | src/module/timeboard.cpp:88-97 | The recursive search on linked stamps appends the places the specification names, in order. |
| TimeBoards.TimeBoard.Print | src/module/timeboard.cpp:99-115 | The recursive print on linked stamps appends the lines the specification names. |
| StampQuery.ContainsIsSubstring | src/module/timeboard.cpp:88-97 | A name matches exactly if it has the searched text somewhere inside. |
| StampQuery.FindsTopmost | src/module/timeboard.cpp:88-97 | The search returns a stamp exactly if its name matches and no name above it does. |
| StampQuery.FindIsAntichainCover | src/module/timeboard.cpp:88-97 | The found stamps are distinct, none lies above another, and every match lies at or below one of them. |
| StampQuery.FoundEnergyIsBounded | src/module/timeboard.cpp:88-97 | The found stamps' energies never add up to more than the root's. |
| StampQuery.FoundEnergyIsTopmost | src/module/timeboard.cpp:88-97 | They add up the energy of each topmost match once. |
| StampQuery.FindPlacesIsFind | src/module/timeboard.cpp:88-97 | The search on linked storage returns the places of the topmost matches, in the same order. |
| StampQuery.PrintsCall | src/module/timeboard.cpp:99-115 | Recorded stamps print as the calls they record, indented by nesting depth. |
| Timeline.LogOfModule | src/module/module.cpp:10-26 | The events of a device while it passes a module's nodes are the bracket word of that call. |
| Timeline.CounterTelescopes | src/module/module_graph.cpp:254-304 | Energy and operations grow over a call by its own pop plus the calls inside it, whatever barriers lie between. |
| Timeline.StampAmount | src/module/timeboard.cpp:56-69 | A stamp's difference in energy or operations is its own pop's contribution plus its children's differences. |
| Timeline.StampsAreAccounted | src/module/timeboard.cpp:56-69 | When no pop takes energy back, every stamp holds at least the energy of those below it. |
| Timeline.RunRecordsTimeline | src/module/module_graph.cpp:149-189 | After a run with timely sync nodes, in any polling order, replaying a device's events yields one stamp tree per call with the reference's readings. |
| Intervals.SyncNodeMeets | src/module/module_graph.cpp:74-97 | In the reference every member of a group passes a sync node its own traffic after the last member's arrival. |
| Intervals.TimeOfModule | src/module/module_graph.cpp:237-252 | A call lasts exactly as long as the work inside it and the time the device waits at barriers inside it. |
| Intervals.WaitsOnlyAtBarriers | src/module/module_graph.cpp:77-90 | Waiting takes no less than no time, and none where there is no barrier. |
| Intervals.StampRecords | src/module/timeboard.cpp:41-69 | The stamp of a call starts at the clock of its push and ends at the clock after its pop; it lasts as long as the work and the waiting inside, and its differences are the work's. |
| Intervals.CallsSpan | src/module/timeboard.cpp:41-42 | The intervals of stamps lie one after another, without overlap, and inside their parent's. |
| Intervals.RunRecordsIntervals | src/module/timeboard.cpp:41-69 | After a run with timely sync nodes, in any polling order, all stamps on a device's board record their calls so, and their intervals are nested within the device's running time. |
| Timeline.RunBreakdownIsBounded | src/module/timeboard.cpp:88-97 | After such a run, a breakdown by any name, the empty one included, adds up to no more than the energy the device used. |
| Trees.PrintTreeIsNested | src/module/timeboard.cpp:99-115 | Printed lines start at the tree's level, and each later one is deeper, by at most one step more than the line before. |
| TreeParser.ParseInvertsPrint | tools/view_result.py:102-125 | Parsing the lines of any non-empty forest gives back its first tree. |
| TreeParser.PrintInvertsParse | tools/view_result.py:102-125 | Printing a parsed tree gives back the lines exactly if they are properly nested below the first. |
| TreeParser.FindsPrintedTree | tools/view_result.py:102-125 | A printed tree is found again wherever it stands among other lines. |
| TreeBuilder.CloseUpTo | tools/view_result.py:112-114 | The inner loop leaves the open nodes of the nearest earlier line that is indented less. |
| TreeBuilder.BuildTree | tools/view_result.py:102-125 | The loop links one node a readable line to exactly the nodes of its child lines, and returns the first; unreadable lines are skipped. |
| TreeBuilder.BuildLayer | tools/parse_layer.py:45-55 | The same for a non-empty list whose first line is the root. |
| LayerSlice.CollectLayer | tools/parse_layer.py:116-130 | The slice runs from the first decoder line to the first later line that is no decoder and indented no more than the last decoder. |
| LayerSlice.CountTrees | tools/parse_layer.py:45-55 | In the tree built from any lines, however they are indented, every line's subtree has one node for each line up to the next that is indented no more. |
| LayerSlice.TreeInPiece | tools/parse_layer.py:45-55 | A piece of any lines that covers the span of its first line has the same subtrees in that span. |
| LayerSlice.LayerIsSubtree | tools/parse_layer.py:116-136 | For any lines, the tree built from the slice is the first decoder's subtree of the whole report if and only if no line inside that subtree ends the layer. |
| LayerSlice.NestedDecoderIsCutShort | tools/parse_layer.py:116-136 | A decoder that holds another decoder and then a module loses that module. |
| LayerSlice.FlatLayerIsSubtree | tools/parse_layer.py:116-136 | A decoder that contains no other decoder is cut out exactly. |
| Report.ViewerRebuildsCalls | tools/view_result.py:102-125 | Record any calls, print the board and parse the report: the call tree of the first call comes back. |
| Progress.WorkIsUniform | src/scheduler/scheduler.cpp:260-309 | If max_process_token covers a full batch, after the assignment all work is prefill or all is decode, every sequence of that kind moves on, none beyond its input or total, and no batch prefills more than its limit. |
| SchedulerObjects.Scheduler.SetMetadata | src/scheduler/scheduler.cpp:260-309 | The loops over the sequence objects have the effect of the assignment, which the next two rows state in tokens. |
| Assigned.PrefillIsShared | src/scheduler/scheduler.cpp:266-303 | While some sequence has input left to read, all such sequences of a batch get the same number of tokens, or all the input they have left if that is less, and the others none; that number times those who read is within max_process_token, and one more for each would not be. |
| Assigned.DecodeIsSingle | src/scheduler/scheduler.cpp:266-283 | Otherwise every running sequence generates one token. |
| SchedulerObjects.Scheduler.HasSumSeq | src/scheduler/scheduler.cpp:24-31 | The loop tells whether some sequence still reads input. |
| Sequences.Sequence.Update | src/scheduler/sequence.cpp:35-50 | A sequence advances by its tokens, and its clocks as the next two rows state; its prefill stage ends when its input is read. |
| Latencies.ClocksAreSums | src/scheduler/sequence.cpp:35-50 | After any run a sequence that is still there has gained, on its end clock, the time of all rounds it was in a batch, on its first-token clock that of the rounds in which it had input left to read, and their number. |
| Latencies.ReportsCarrySums | src/scheduler/sequence.cpp:35-50 | Whatever a run reports about a sequence, for its first token or when it is done, carries these sums up to and with the reporting round. |
| Sequences.BatchedSequence.GetSum | src/scheduler/sequence.cpp:59-68 | Returns exactly the sequences that still read input, in order. |
| Sequences.BatchedSequence.GetGen | src/scheduler/sequence.cpp:70-78 | Returns exactly the sequences that have read their input, in order. |
| Sequences.BatchedSequence.Update | src/scheduler/sequence.cpp:80-85 | Every sequence of the batch is updated once. |
| Sequences.BatchedSequence.Pop | src/scheduler/sequence.cpp:87-95 | Removes exactly the sequences with the given id and keeps the order of the others. |
| Sequences.BatchedSequence.GetProcessToken | src/scheduler/sequence.cpp:99-106 | Returns the tokens assigned to the batch. |
| SchedulerObjects.Scheduler.SettleBatch | src/scheduler/scheduler.cpp:318-329 | The loop over a copy of the batch removes and reports finished sequences and reports each first token once. |
| SchedulerObjects.Scheduler.UpdateScheduler | src/scheduler/scheduler.cpp:311-332 | The update of all batches leaves the unfinished sequences, in order, and returns the reports. |
| SchedulerObjects.Scheduler.AddLatency | src/hardware/cluster.cpp:609-612 | Decoding of exactly the listed sequences may start at the given time, seen also through their batches. |
| Latencies.ReportedStartNow | src/hardware/cluster.cpp:517-518 | After a timed round decoding of exactly the sequences it reported may start at the round's end; warm-up rounds leave these times alone. |
| Latencies.ClockShowsTime | src/hardware/cluster.cpp:478-493 | The scheduler's clock shows the time of the rounds that took place. |
| SchedulerObjects.Scheduler.FindRoom | src/scheduler/scheduler.cpp:367-372 | The rotation stops at the first batch with room, counting on from the counter, or goes once around. |
| SchedulerObjects.Scheduler.FillRunningQueue | src/scheduler/scheduler.cpp:357-381 | The loops over queue and batches have the effect of the admission step, counter included. |
| Assigned.FillGoesByTurns | src/scheduler/scheduler.cpp:357-381 | Every fill goes on from the batch after the one that took the last sequence: each admitted sequence goes to the first batch with room from there on, and the counter is left after the last turn taken. |
| Assigned.RoundGoesByTurns | src/scheduler/scheduler.cpp:357-381 | A round hands the counter on to the fill at its end, which admits from the waiting sequences and then the new ones. |
| Assigned.SpreadsEvenly | src/scheduler/scheduler.cpp:367-379 | While every batch has room for all that is admitted, sequences go one to each batch in turn. |
| SchedulerObjects.Scheduler.FillSequenceQueue | src/scheduler/scheduler.cpp:453-475 | As many sequences are pushed as the batches are short of, newly numbered, behind the queue. |
| SchedulerObjects.Scheduler.FirstFill | src/hardware/cluster.cpp:440-441 | The first requests and the first admission lead to the state from which the theorems below start. |
| SchedulerObjects.Scheduler.HittingQueue | src/scheduler/scheduler.cpp:477-487 | The warm-up takes the objects through a run of the value model that asks for what is missing, and keeps all invariants. |
| SchedulerObjects.Scheduler.MixedRound | src/hardware/cluster.cpp:476-521 | A timed round is a round of the value model; without tokens it ends early and changes nothing. |
| SchedulerObjects.Scheduler.RunIterationMixed | src/hardware/cluster.cpp:459-525 | The timed rounds, whatever time each takes, are a run of the value model that keeps all invariants. |
| Assigned.PushOutcome | src/scheduler/scheduler.cpp:42-112 | A push fails exactly if the input does not fit, or something is to be generated from no input, or a negative number of tokens; it yields nothing exactly if nothing is to be generated, and otherwise a sequence that has not been scheduled. |
| Assigned.PushedLengths | src/scheduler/scheduler.cpp:69-112 | The sequence generates as much as asked for or as fits, and its total misses the last token; in prefill mode it is its input; it starts behind the reused part of its input, rounded down, or in decode mode behind all of it. |
| Progress.PushedIsReady | src/scheduler/scheduler.cpp:42-93 | A synthetic sequence has tokens left, except in decode mode with one output token; it starts in prefill exactly outside decode mode, for every reuse rate below one. |
| Progress.RoundIsConsistent | src/scheduler/scheduler.cpp:260-381 | After a round nothing is half processed, every sequence has tokens left, no batch exceeds its share, and decoding never starts in the future. |
| Progress.RunIsConsistent | src/scheduler/scheduler.cpp:477-487 | The same in every state a run reaches. |
| Progress.SkippedIsSame | src/hardware/cluster.cpp:481-484 | A round that assigns no token has changed nothing. |
| Kept.LatenciesAreOrdered | src/scheduler/sequence.cpp:35-50 | In every report of a run the first-token time is at most the end time, and equal to it in a first-token report. |
| Kept.ReportsAreMilestones | src/scheduler/scheduler.cpp:318-329 | In every report of a run a sequence has come to its total, or has just read its input and is recorded with more to generate. |
| DecodeMode.ReportedOnlyWhenDone | src/scheduler/scheduler.cpp:88-90 | In decode mode a sequence is reported once, when it is done and gone; its first token is not reported. |
| DecodeMode.FirstTokenClockNeverStops | src/scheduler/sequence.cpp:39-49 | In that report its first-token time has grown by as much as its end time. |
| Admission.PlaceTakesFirst | src/scheduler/scheduler.cpp:367-379 | The search takes the first batch with room counting on from the rotation counter, and all batches before it are full. |
| Admission.AttemptSucceeds | src/scheduler/scheduler.cpp:367-379 | One attempt succeeds exactly if some batch has room, and then adds the sequence to that batch only. |
| Admission.AdmitMoves | src/scheduler/scheduler.cpp:362-380 | As many sequences are admitted, in queue order, as attempts and free places allow; nothing is lost, duplicated or reordered. |
| Admission.FillAdmitsPrefix | src/scheduler/scheduler.cpp:357-381 | The longest possible prefix of the queue is admitted: the batches end up full or the queue empty. |
| Conservation.RoundConserves | src/scheduler/scheduler.cpp:260-381 | What sequences hold and what finished ones took along accounts for what was held, what arrived, and the tokens processed. |
| Conservation.RunConserves | src/scheduler/scheduler.cpp:477-487 | Over any run the tokens processed are exactly the total growth of the sequences. |
| Conservation.RunningMeansWork | src/scheduler/scheduler.cpp:260-309 | If max_process_token covers a full batch, a round has tokens to process as long as a sequence is running. |
| Stalls.NoTokensExactlyWhenStalled | src/scheduler/scheduler.cpp:260-309 | For every max_process_token, a round has no tokens exactly if nothing runs, or something prefills and every batch that prefills has more such sequences than max_process_token. |
| Stalls.SkippedExactlyWhenStalled | src/hardware/cluster.cpp:476-484 | Warm-up rounds always take place, timed ones exactly if the scheduler is not in such a state. |
| Stalls.StalledForever | src/hardware/cluster.cpp:476-484 | From such a state all timed rounds are skipped: nothing changes, and nothing is reported. |
| Conservation.BatchesStayFull | src/scheduler/scheduler.cpp:357-475 | While every round asks for what is missing, all batches stay full and each fill leaves the remainder of the batch size more in the queue. |
| Conservation.QueueAfterFills | src/scheduler/scheduler.cpp:357-487 | From empty, after any number of fills every batch holds exactly its share and the queue is the number of fills times total_batch_size mod dp_degree. |
| Lifecycle.RoundOutlives | src/scheduler/scheduler.cpp:260-381 | In one round a sequence goes on, or is recorded and reported for its first token, or is reported as done and gone. |
| Lifecycle.PushedIsThere | src/scheduler/scheduler.cpp:95-112 | A sequence pushed in a round is in the queue or in one batch after it. |
| Lifecycle.ReportedExactlyOnce | src/scheduler/scheduler.cpp:311-332 | Over any run a sequence is in exactly one place until it is done; it is reported once for its first token, if more is to come, and once strictly later when it is done. |
| Lifecycle.RoundKeepsUnique | src/scheduler/sequence.cpp:10-11 | Ids stay unique across queue and batches when new sequences are numbered on. |
| Lifecycle.WaitingIsNotReported | src/scheduler/scheduler.cpp:311-332 | A waiting sequence is never reported. |
| NoStarvation.PrefillRoundHelps | src/scheduler/scheduler.cpp:266-303 | With full batches and at least two output tokens each, a prefill round reduces the backlog of input tokens. |
| NoStarvation.RankFalls | src/scheduler/scheduler.cpp:260-381 | Every round brings a running sequence nearer to its end in the measure made of backlog and remaining output tokens. |
| NoStarvation.NoStarvation | src/scheduler/scheduler.cpp:260-487 | Despite prefill priority and continuous admission a running sequence is reported as done and gone within backlog plus d times one plus the input tokens that fit, whether it started in prefill or in decode mode. |
| AddressMap.MapIsBijection | src/dram/mmap_controller.cpp:44-74 | Bundles that fit and coordinates in range correspond one to one. |
| AddressMap.AddrToVec | src/dram/mmap_controller.cpp:44-74 | Succeeds exactly for addresses that fit, with the one coordinate in range that stands for the address's bundle. |
| AddressMap.AddrToVecLogic | src/dram/mmap_controller.cpp:76-114 | Yields the coordinate whose digits make up the address's bundle, the rank up to its remainder. |
| AddressMap.BundleOfLogicDigits | src/dram/mmap_controller.cpp:76-114 | The digits make up the bundle again, and the bank is one of the first four. |
| AddressMap.VecToAddrLogic | src/dram/mmap_controller.cpp:116-155 | Yields the address of the bundle that the digits make up with num_cube as the lowest radix. |
| AddressMap.LogicRoundTrip | src/dram/mmap_controller.cpp:76-155 | For addresses that fit, there and back gives the address rounded down to its granule exactly if the cube counts agree or the bundle is the first of its cube. |
| AddressMap.LogicRoundTripFits | src/dram/mmap_controller.cpp:76-155 | With equal cube counts, there and back gives the address rounded down to its granule exactly if the address fits; beyond that the rank wraps around. |
| AddressMap.LogicMapsDisagree | src/dram/mmap_controller.cpp:76-155 | With four logic cubes and five cubes, an address that fits is not recovered. |
| AddressMap.LogicDigitsOfBundle | src/dram/mmap_controller.cpp:76-155 | The digits of a made-up bundle index are the coordinate it was made from, for every coordinate with its other digits in range. |
| AddressMap.LogicVecRoundTrip | src/dram/mmap_controller.cpp:76-155 | With equal cube counts, back and there gives the coordinate again exactly if its bank is one of the first four. |
| Allocation.MMapController.SetNormal | src/dram/mmap_controller.cpp:158-169 | A weight is placed at the cursor, which moves on by its size; activations and caches are placed at 0 and move nothing. |
| Allocation.MMapController.SetAll | src/dram/mmap_controller.cpp:158-169 | Placing tensors one after another gives the placements that the two theorems below are about. |
| Allocation.PlacedBehindWeights | src/dram/mmap_controller.cpp:158-169 | A weight begins where all earlier weights end, any other tensor at 0; a tensor has as many bundles as lie in it whole. |
| Allocation.WeightsNeverCollide | src/dram/mmap_controller.cpp:158-169 | Over any sequence of placements and for any sizes, bundles of two different weights never share a coordinate. |
| Allocation.ActivationsCollide | src/dram/mmap_controller.cpp:158-169 | Any two activations or caches that fill a granule share their first bundle. |
| CommandCount.GetAddrVec | src/dram/mmap_controller.cpp:21-42 | Fails exactly for a bundle that does not fit on the all-channel map, and never on the logic map. |
| CommandCount.ReadKernel | src/dram/pimkernel/Read.cpp:8-29 | Enqueues, in order, exactly the bundles on the first pair of channels, and fails exactly if some bundle does not fit. |
| CommandCount.Gemv | src/dram/pimkernel/GEMV.cpp:8-75 | Enqueues, in order, exactly the bundles each processor and bandwidth works on, and fails exactly for unsupported bandwidths or tensors that do not fit. |
| Commands.CommandsAccessBundles | src/dram/mmap_controller.cpp:21-114 | The commands are those of the bundles that pass the filter, in rising order, none left out; each is at a coordinate that exists, from which its bundle is got back, by the map its processor uses. |
| Commands.ReadFilter | src/dram/pimkernel/Read.cpp:17-26 | The read filter passes the bundles of cube 0 on its first two channels. |
| Commands.GemvFilter | src/dram/pimkernel/GEMV.cpp:21-74 | In memory the kernel takes all banks, every second one or the first of the first bank group, as the bandwidth asks; on the logic die every second bank of the first bank group in all ranks. |
| CommandCount.ReadCount | src/dram/pimkernel/Read.cpp:17-26 | At base address 0 the read commands are those of cube 0's share on its first two channels. |
| CommandCount.IdealIsReadCount | src/hardware/device.cpp:179-204 | The closed form is the number of commands of the loop, and exactly one more when cube 0's share is a multiple of the number of channels. |
| CommandCount.DramInterface.RunIdeal | src/hardware/device.cpp:179-204 | Sets activations and reads or writes from the closed form and clears everything else; an empty tensor changes nothing. |
| CommandCount.GemvCountsHalve | src/dram/pimkernel/GEMV.cpp:21-56 | At base address 0 and with four banks, bandwidth 8 takes half the commands of bandwidth 4, and bandwidth 16 half of those, rounded up. |
| CommandCount.LogicCount | src/dram/pimkernel/GEMV.cpp:59-74 | On the logic map the commands are the successive shares of cube, channel, bank group and lower bank. |
| NearbankFigures.AmountsOfProduct | src/dram/nearbank/nearbank_pim.cpp:64-84 | Both operands and the result are moved once, evenly over the banks; the number of fills is the least, but at least one, that covers a bank's bytes. |
| NearbankFigures.TimesOfProduct | src/dram/nearbank/nearbank_pim.cpp:84-178 | With one row buffer to fill, a bank takes the longer of filling and processing; with several, the longer of all fills and of the first fill with all processing. Base time and latency are such, without and with the time of reduction and dequantisation. |
| NearbankFigures.RowbufferTime | src/dram/nearbank/nearbank_pim.cpp:86-90 | The time for all fills, times the bandwidth, is their number times a row buffer. |
| NearbankPipeline.FinishOfWork | src/dram/nearbank/nearbank_pim.cpp:38-46 | The exact two-stage recurrence has a closed form: either the first fill and all processing, or all fills and the last buffer. |
| NearbankPipeline.LatencyIsClose | src/dram/nearbank/nearbank_pim.cpp:48-112 | For every product the latency without extra work is at most the exact pipeline's; below it by at most the processing of one row buffer if a bank fills several, and by at most a factor of two if it fills one. |
| NearbankPipeline.SwitchesCostAtMostTheirWork | src/dram/nearbank/nearbank_pim.cpp:126-187 | For every product, reduction and dequantisation never lower the latency and raise it by at most the processing time they add. |

## Left out

- The cost formulas of the GPU, logic and PIM executions, memory checks and power: long straight-line arithmetic with only easy claims; a leaf's time and energy are inputs.
- The DRAM simulator and the execution cache, which keys results by size although base addresses differ.
- Disaggregated prefill and decode, and injection by arrival rate: their progress depends on simulated time that may not advance. `queueing_delay` and `arrival_time` go with them.
- The parallel high and low lanes of a device: a push may lower the clock there, so clocks are claimed for other tensors only.
- PolledRefinesLockStep: asks that sync nodes are timely, as said above; for others only that polling ends is claimed, and one example where clocks and a flag come out wrong.
- QuarterSplitIsClose: whether the factor of four can be lowered is not settled.
- ReportedExactlyOnce: asks for a sequence that starts in prefill, as `LatenciesAreOrdered` and `ReportsCarrySums` do, and that later arrivals carry other ids, as the scheduler object numbers them; `DecodeMode` covers sequences that start in decode mode, where the mode is one for the whole configuration and nothing prefills.
- Stamps keep energy and one more counter; the other energies, durations and utilisations of `set_status` are differences of the same kind, and shapes and operations per byte are not modelled.
- Random and traced routes and lengths, YAML, CSV, HTML, the report's statistics and classification of stages, and the text of a line beyond its indentation and label. Which labels name a decoder is a parameter.
- `compute_stats`, `classify_stage` and `clean_children` of the scripts, which add up or copy a finished tree.
- `setLOGIC` and `setChannel`, which nothing calls.
- Rounding, integer overflow, including that of the rotation counter, shared ownership, and shallow copies of nodes that share a child list.
- WithinIsReceivedManyTimes: asks for nodes of eight devices that hold whole groups; for other sizes one example is given where the two sides differ.
- NoStarvation: asks for at least two output tokens for every sequence, since with one a sequence could finish in a prefill round and make room for another, and for a max_process_token that covers a full batch, since rounds may stall otherwise.
