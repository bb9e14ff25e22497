# The event pipeline of the traffic generator, verified

The generator replays recorded network connections. A file worker thread reads connections and events from
comma-separated files, keeps them in a heap and pushes them, in time order, to a queue; the event handler thread takes
them off the queue when their time has come, connects, accepts and sends, and asks the file worker for more. The queue
between the two is a lock-free linked list with one producer and one consumer. This project models that pipeline and
proves that it keeps its promises. `dafny verify dfyconfig.toml` checks all of it.

| layer | files | what is modelled |
|---|---|---|
| queue | `QueueMachine`, `QueueInvariant`, `QueueRefinement` | `EventQueue` as two threads over a heap of nodes: one step for every load, store, allocation and free, and an allocator that may hand out freed addresses again |
| queue, one thread | `EventQueue` | the classes `eventJob`, `EventQueue` and `EventHeap` with their fields updated in place |
| reading | `Texts`, `Numbers`, `Records` | `trim`, the field splitter, the stream loader, the memory-mapped loader, and the number formats they feed |
| replay and merge | `Replay`, `Reads`, `Gaps`, `Merge`, `Turns`, `FileWorker` | the class `FileWorker`: `startup`, `loadEvents`, `loop`; the batch-wise reads, the record-at-a-time replay, the watermark merge and the sequence of turns it is proved to follow |
| names | `Connections`, `ConnectionIndex` | socket addresses, their comparison, their printed form, and the table from names to connection ids |
| handler | `Division`, `Signalling`, `EventHandler` | the class `EventHandler`: its connection tables, the dispatch of events, the pull loop and the requests for more |
| threads together | `PullLoop`, `Pipeline` | the handler's and the server's loop over the interleaved queue, and the file worker's thread in front of it |

The main results are

- `QueueRefinement.RunRefinesFifo`, `RunsAreSafe`, `RunsAreRaceFree`, `DeliveredIsPrefixOfAdded`: under every interleaving
  the queue is an atomic first-in-first-out queue, never touches a freed node, and has no data race;
- `FileWorkers.FileWorker.LoadEvents`, `Reads.ReturnsIff`, `Reads.AfterIsReplay`, `Replay.ReplayInClosedForm`: exactly
  when `loadEvents` returns; where every line is a record, it is a record-at-a-time replay, of which every
  event of every call is known in closed form: which record, in which pass, shifted by how much;
- `FileWorkers.FileWorker.Loop`, `Turns.RunAccounts`: over a whole run, what the worker released and what waits are
  together the start events and what the calls of `loadEvents` loaded, one at startup and one for each notification;
- `Reads.CallsRepeat`, `Reads.OrderKeptIff`, `Replay.OrderKeptIff`, `Turns.SortedIff`: every call repeats the first, some
  periods later; the exact condition under which no call loads an event earlier than its watermark, and under which the
  output of every run of the woken worker is in time order;
- `Gaps.OrderedKeepsUp`, `Gaps.OrderedFileFallsBehind`: files in time order meet that condition if no three malformed
  lines in a row come before a record; a file with such a gap that does not meet it;
- `Records.LoadMMapFile`, `Records.LoadersDifferIff`, `Records.ChunkedLoad`, `Records.PrintedListIsReadBack`: exactly when
  the loaders differ, that reading in pieces is reading at once, and exactly which printed lists are read back unchanged;
- `ConnectionIndex.LookupAgreesWithScan`: the lookup by printed name is a structural scan;
- `EventHandlers.EventHandler.Serve`: any run of arrivals, turns and accepts keeps the connection tables consistent;
- `FileWorkers.FileWorker.EventLineSays`, `FileWorkers.ConnLineSays`: what the columns of the two files mean, from the text
  of a line to the event, the pair of addresses and the watermark;
- `PullLoop.TurnCompletes`, `Pipeline.DueIsDispatched`: what is due is dispatched;
- `Pipeline.EndToEnd`: over every interleaving of worker and handler, what is dispatched is a prefix of what the worker
  released, sorted if the file keeps up, nothing is dispatched early, and every event released or waiting is accounted
  for.

## Conventions

Times and counters are unbounded integers, and the seconds in the events file exact reals. `maxQueuedFileEvents` is the
parameter `quota`. In the machine a dangling or null dereference and a double free are the outcome `Fault` of a step, so
that their absence is proved; no step reads the auxiliary `History`. The interleaving is sequentially consistent:
outside the constructor, which runs before either thread starts, every atomic access of the queue has the default order.

`loadEvents` takes a read without any record for the end of the file, and so may start a file with malformed lines
over early, or go round it for ever. A call returns exactly when each lap it makes through the file finds some record
that passes (`Reads.Returns`, `Reads.ReturnsIff`); calls return for every number of events needed exactly when some
record passes and no line before it is malformed (`Reads.EndsForAllIff`). On all files from which it returns it loads
what it is to, and what the thread releases is accounted for.

The results on order hold on these files if also no time is negative (`Reads.Timed`). The source remarks that the
order of the file should be checked (src/fileWorker.cpp:320) but does not check it. The output is in time order
exactly for the files that keep up, which the first call tells (`Reads.KeepsUp`): none of its events, one period
later, is behind the watermark it leaves. A file in time order keeps up if no three malformed lines in a row come
before a record (`Gaps.OrderedKeepsUp`); with such a gap it need not, since a lap may end in the gap and a later lap,
which reads in smaller batches, get past it (`Gaps.OrderedFileFallsBehind`). Where every line is a record, keeping up
can be read off the file in any order (`Replay.KeepsUp`, `Reads.KeepsUpIff`): a call needs no more events than one
pass has, or no record that passes is earlier than the last one a call takes by more than the time of the file's last
line. `Replay.UNORDERED` is a two-line file out of order that does not keep up.

When a call of `loadEvents` has what it needs, its last read asks for zero records, which `loadFile` takes as no limit:
the rest of the file is read and thrown away, and the next call starts at the top. The model does the same.

## Model

| member | source | states |
|---|---|---|
| QueueInvariant.InitInv | src/eventQueue.cpp:33-45 | the constructor leaves one counted dummy node to which first, divider and last point |
| QueueInvariant.AllocInv | src/eventQueue.cpp:67 | a new node at any unused address, one freed before included, disturbs no node of the chain |
| QueueInvariant.LinkInv | src/eventQueue.cpp:66-67 | linking a new node behind the last one touches a live node and keeps the chain from first over divider to last |
| QueueInvariant.PublishInv | src/eventQueue.cpp:70 | moving last to the linked node keeps the chain acyclic and ends it there |
| QueueInvariant.AdvanceInv | src/eventQueue.cpp:54-56 | first only advances while it is strictly behind divider, over a live node |
| QueueInvariant.DeleteInv | src/eventQueue.cpp:58-60 | the node deleted is live, is no longer reachable from first, and is none that divider, last or the consumer's locals refer to |
| QueueInvariant.ProducerTickInv | src/eventQueue.cpp:53-74 | no producer step touches a freed node, and each keeps the invariant, whatever address the allocator returns |
| QueueInvariant.DividerIsNotLast | src/eventQueue.cpp:79-84 | the comparison of divider and last is not fooled by reused addresses: it is equal exactly when nothing is queued, and otherwise divider's next is the live node of the oldest queued event |
| QueueInvariant.ConsumerTickInv | src/eventQueue.cpp:78-102 | no consumer step touches a freed or empty node: the cached divider node stays live until the consumer's own store |
| QueueInvariant.StepInv | src/eventQueue.cpp:53-102 | every step of either thread, in any order, succeeds and keeps the invariant |
| QueueRefinement.ProducerSimulates | src/eventQueue.cpp:53-74 | addEvent takes effect at its store to last, cleanUp changes nothing, and the count they end with is that of the atomic queue |
| QueueRefinement.ConsumerSimulates | src/eventQueue.cpp:78-102 | a successful getEvent takes effect at its store to divider, a failed one and nextEventTime at their load of last |
| QueueRefinement.StepRefinesFifo | src/eventQueue.cpp:53-102 | each step of the interleaved queue is a step of an atomic FIFO or invisible in it, and only the two stores change the contents |
| QueueRefinement.RunRefinesFifo | src/eventQueue.cpp:28-102 | each run of the interleaved queue is a run of the atomic FIFO with the same calls and returns |
| QueueRefinement.RunsAreSafe | src/eventQueue.cpp:53-102 | no schedule reaches a dangling or null dereference or a double free |
| QueueRefinement.RunDelivers | src/eventQueue.cpp:78-91 | over any run, the jobs handed out by returning getEvent calls are the events the divider has passed, in order |
| QueueRefinement.DeliveredIsPrefixOfAdded | src/eventQueue.cpp:64-91 | over any run, what getEvent handed out is a prefix of what was passed to addEvent: no loss, duplicate or reorder |
| QueueRefinement.NumEventsCountsLiveNodes | src/eventQueue.cpp:53-74 | between producer operations numEvents is nodes allocated minus nodes freed |
| QueueMachine.ProducerWritesAreListed | src/eventQueue.cpp:53-74 | the producer's steps change, allocate and free nodes only where its list of plain accesses says so |
| QueueMachine.ProducerReadsAreListed | src/eventQueue.cpp:53-74 | what a producer step does is decided by the plain accesses listed for it |
| QueueMachine.ConsumerAccessesAreListed | src/eventQueue.cpp:78-102 | the consumer writes no node, and what its step does is decided by the plain accesses listed for it |
| QueueRefinement.NoDataRace | include/eventQueue.h:27-31 | where the invariant holds, no plain access to a node field is about to race with the other thread's |
| QueueRefinement.RunsAreRaceFree | include/eventQueue.h:27-31 | no reachable state has a race on next or eptr, allocation and deletion of nodes included |
| QueueRefinement.NextTestsSucceed | src/eventQueue.cpp:82 | once divider differs from last, the test for a null next succeeds; likewise on line 95 |
| QueueRefinement.ProducerProgress | src/eventQueue.cpp:53-74 | addEvent and cleanUp end after a bounded number of their own steps, even while the consumer advances divider |
| QueueRefinement.ProducerFinishes | src/eventQueue.cpp:53-74 | an operation of the producer left to itself returns within that bound |
| QueueRefinement.CleanUpResult | src/eventQueue.cpp:53-63 | cleanUp returns one more than the number of undelivered events at its last load of divider |
| QueueRefinement.PromiseStep | src/eventQueue.cpp:78-102 | a time that was seen stays the time of the oldest event through any step but the consumer's own taking of it |
| QueueRefinement.PeekIsStable | src/eventQueue.cpp:78-102 | after nextEventTime returned t >= 0 the consumer's next getEvent succeeds with an event of time t, whatever the producer does |
| QueueRefinement.DestructorFreesEveryNodeOnce | src/eventQueue.cpp:46-52 | the destructor frees each remaining node once, and over the queue's life frees balance allocations |
| EventQueues.EventQueue.constructor | src/eventQueue.cpp:33-45 | a new queue is valid and empty |
| EventQueues.EventQueue.DeleteFirst | src/eventQueue.cpp:55-60 | one turn of the clean-up removes the first node of the chain and leaves what is queued alone |
| EventQueues.EventQueue.CleanUp | src/eventQueue.cpp:53-63 | exactly the nodes before divider go, and the result is one more than the number of queued events |
| EventQueues.EventQueue.AddEvent | src/eventQueue.cpp:64-74 | the event is appended at the end of what is queued |
| EventQueues.EventQueue.GetEvent | src/eventQueue.cpp:78-91 | the oldest event is taken off; on an empty queue the call fails and changes nothing |
| EventQueues.EventQueue.NextEventTime | src/eventQueue.cpp:92-102 | the time of the event getEvent would return, -1 when there is none |
| EventQueues.EventQueue.Destroy | src/eventQueue.cpp:46-52 | the nodes of the chain are deleted from the front, each once |
| EventQueues.EventHeap.AddEvent | src/eventQueue.cpp:111-113 | the event joins the heap's contents |
| EventQueues.EventHeap.NextEventTime | src/eventQueue.cpp:115-121 | the least time in the heap, -1 when it is empty |
| EventQueues.EventHeap.NextEvent | src/eventQueue.cpp:123-132 | removes and returns some event of least time, and nothing from an empty heap |
| Events.MinExists | src/eventQueue.cpp:17-19 | under compareEvents a nonempty heap has a top |
| Records.TrimIsMaximal | src/fileWorker.cpp:69-75 | trim removes only blanks and tabs, at the ends, and leaves none there |
| Records.TrimFixesExactlyTrimmed | src/fileWorker.cpp:69-75 | trim leaves a text alone iff it has no blank at either end; so trimming twice is trimming once |
| Records.GetLineLast | src/fileWorker.cpp:90-92 | the last line needs no newline, and reading it or trying to read another meets the end of the stream |
| Records.ParseLine | src/fileWorker.cpp:93-102 | the splitter yields the trimmed comma-separated fields, dropping only an empty field after the last comma |
| Records.LoadFile | src/fileWorker.cpp:82-110 | the records of the right field count among the next lines, malformed lines counting against the limit, and the position of the stream afterwards |
| Records.LoadedSizes | src/fileWorker.cpp:103-105 | every record loaded has the field count asked for |
| Records.ChunkedLoad | src/fileWorker.cpp:82-110 | a load with a positive limit a followed by one with limit b is one load with limit a+b (without limit if b is none), with the same stream at the end |
| Records.LoadMMapFile | src/fileWorker.cpp:112-149 | the memory-mapped loader returns what the stream loader does, except a last line without newline |
| Records.NoTailWhenTerminated | src/fileWorker.cpp:112-149 | when every line ends in a newline there is no such exception: the loaders agree for every field count and every limit |
| Records.LoadersDifferIff | src/fileWorker.cpp:112-149 | the loaders differ iff text follows the last newline, it has the field count asked for, and the limit is none or exceeds the number of newlines |
| Records.LoadReadsLines | src/fileWorker.cpp:82-110 | a load takes the next lines up to the limit, malformed ones included, keeps those with the field count, and leaves the rest |
| Records.EmptyLoadIff | src/fileWorker.cpp:182-184 | a read is empty, which loadEvents takes for the end of the file, iff every line it may take is malformed |
| Records.FieldsOfJoin | src/fileWorker.cpp:93-102 | splitting undoes joining with commas, up to trimming and one empty field at the end |
| Records.JoinedLineSurvives | src/fileWorker.cpp:93-102 | a joined record is split into itself iff its fields are trimmed and its last is not empty |
| Records.PrintedListIsReadBack | src/fileWorker.cpp:82-110 | loading a printed list gives it back iff every record has the field count, trimmed fields and a nonempty last field |
| Numbers.StolOfDecimal | src/fileWorker.cpp:203-207 | stol and stoi read a printed decimal number, with or without minus sign, back as that number iff it fits 64 and 32 bits |
| Numbers.DecimalAppends | src/connections.cpp:40-64 | a number is printed as the number without its last digit and then the digit, and the ten digits are printed as themselves |
| Numbers.DecimalOfValue | src/connections.cpp:5-11 | digits without leading zeros are the text of the number they are read as |
| Numbers.LeadingZero | src/fileWorker.cpp:203-207 | stol and stoi ignore a leading zero |
| Numbers.BlanksSkipped | src/fileWorker.cpp:203-209 | stol, stoi and stod skip blanks, tabs and line ends before a number |
| Numbers.NoNumber | src/fileWorker.cpp:275-281 | a text that begins with anything but a blank, a sign, a point or a digit is no number |
| Numbers.StodOfWhole | src/fileWorker.cpp:208-209 | without a fraction stod reads what stol reads |
| Numbers.PointMoves | src/fileWorker.cpp:208-209 | moving the point one digit to the right multiplies what stod reads by ten |
| Numbers.TrailingZero | src/fileWorker.cpp:208-209 | a zero at the end of the fraction makes no difference |
| Numbers.SignsOfFractions | src/fileWorker.cpp:208-209 | a minus sign negates what stod reads, and a plus sign makes no difference |
| Numbers.PointFirst | src/fileWorker.cpp:208-209 | a number may begin with its point, but needs a digit |
| Numbers.Thousandfold | src/fileWorker.cpp:208-209 | a thousand times a number of seconds is what stol reads when the point is moved behind the third digit of the fraction, but for what is behind it |
| Replay.TruncateIsTowardsZero | src/fileWorker.cpp:208-209 | the conversion to an integer cuts off what is behind the point, of negative numbers too |
| Replay.SameTruncation | src/fileWorker.cpp:209-231 | truncating before adding the shift of the pass and truncating after it give the same time |
| Replay.LoadEndsIff | src/fileWorker.cpp:182-239 | a call that needs events gets them after some number of records and restarts iff some record passes the filters |
| Replay.WrapInCall | src/fileWorker.cpp:184-200 | starting the file over fixes loopDuration at the first pass's last processed time and leaves the watermark where it was |
| Replay.TakeInCall | src/fileWorker.cpp:202-232 | a record taken is, if it passes, the next event of the closed form, and the watermark is its time in the file plus the durations of the passes before |
| Replay.PullInCall | src/fileWorker.cpp:182-239 | inside a call exactly the events still needed are loaded, each as the closed form says, and the call stops at the record that gave the last |
| Replay.ReplayInClosedForm | src/fileWorker.cpp:166-241 | for any order of the file: call n+1 loads E events, event i being the passing record number i mod P of pass n*Rounds + i div P, shifted by as many durations |
| Replay.LastEventAtWatermark | src/fileWorker.cpp:231 | the watermark a call leaves is the time of its last event |
| Replay.WatermarkNeverDecreases | src/fileWorker.cpp:231 | in closed form too, lastEventTime never decreases across calls, for any order of the file |
| Replay.OrderKeptIff | src/fileWorker.cpp:166-241 | no call ever loads an event earlier than the watermark it began with iff the file keeps up |
| Replay.UnorderedFileFallsBehind | src/fileWorker.cpp:320 | a two-line file out of time order that does not keep up |
| Replay.OrderedKeepsUp | src/fileWorker.cpp:320 | where every line is a record, a file in time order keeps up, and all of a pass that is ever processed comes within one duration |
| Replay.OrderedReplay | src/fileWorker.cpp:166-241 | in time order: the events of a call are sorted, lie between the old and the new watermark, and event i lies in [k*D, (k+1)*D] for the pass k that loads it |
| Replay.StepsInOrder | src/fileWorker.cpp:202-232 | in time order: lastEventTime does not decrease from record to record or over a restart, and each record processed in pass k gets a time in [k*D, (k+1)*D] |
| Reads.TurnProgress | src/fileWorker.cpp:182-239 | each turn of the loop brings the end of a call closer: fewer events needed, or a start over that will find some, or fewer lines left |
| Reads.CallLoadsQuota | src/fileWorker.cpp:166-241 | every call loads exactly E events, on every file from which it returns, malformed lines or not |
| Reads.FinishesIff | src/fileWorker.cpp:182-239 | from any place in the file and for any number of events needed, the loop ends iff the lap it is in and each that follows finds some of what is still needed |
| Reads.ReturnsIff | src/fileWorker.cpp:166-241 | for the given quota, the first call returns iff each lap it makes finds some record that passes |
| Reads.EndsForAllIff | src/fileWorker.cpp:182-239 | the loop ends for every number of events needed iff some record passes the filters and no line before it is malformed |
| Reads.PullIsReplay | src/fileWorker.cpp:202-238 | where every line is a record, reading in batches of what is still needed makes no difference |
| Reads.AfterIsReplay | src/fileWorker.cpp:166-241 | where every line is a record and some record passes, any number of calls is the record-at-a-time replay |
| Reads.PullShifted | src/fileWorker.cpp:182-239 | k passes later a call does the same, with all times k durations later, through every batch, every start over and every truncation |
| Reads.PullEndsWithEvent | src/fileWorker.cpp:231 | the watermark a call leaves is the time of its last event |
| Reads.CallsRepeat | src/fileWorker.cpp:166-241 | call n+1 is the first call, n periods later: same records in the same order, a period being the passes one call begins times loopDuration |
| Reads.WatermarkNeverDecreases | src/fileWorker.cpp:231 | lastEventTime never decreases across calls, for any order of the file and with malformed lines |
| Reads.LoadsAhead | src/fileWorker.cpp:166-241 | on a file that keeps up no call loads an event earlier than the watermark it began with |
| Reads.FallsBehind | src/fileWorker.cpp:320 | on a file that does not, every call but the first loads an event earlier than the last event of the call before |
| Reads.OrderKeptIff | src/fileWorker.cpp:166-241 | no call ever loads an event earlier than the watermark it began with iff the events of the first call, one period later, are not behind its watermark |
| Reads.KeepsUpIff | src/fileWorker.cpp:166-241 | where every line is a record, that is the condition on the times of the file |
| Gaps.TurnConfined | src/fileWorker.cpp:182-239 | a lap that needs too little to get over malformed lines in one read stays before them, and so do the laps that follow |
| Gaps.GapConfines | src/fileWorker.cpp:184-200 | where the first lap ends in a file without gaps, the later laps do not get past |
| Gaps.FirstLap | src/fileWorker.cpp:182-239 | in time order and without gaps, a call leaves a watermark no later than one duration after the start of its last lap |
| Gaps.OrderedKeepsUp | src/fileWorker.cpp:320 | a file in time order, malformed lines included, keeps up if no three malformed lines in a row come before a record |
| Gaps.OrderedFileFallsBehind | src/fileWorker.cpp:320 | a file in time order with seven malformed lines in a row does not keep up |
| Merge.ReleaseKeepsOrder | src/fileWorker.cpp:330-337 | releasing the least event up to the watermark keeps the output sorted, below the heap, and complete |
| Merge.RefillKeepsOrder | src/fileWorker.cpp:361 | adding events no earlier than the watermark, and raising it, keeps that |
| Merge.AllDueConserves | src/fileWorker.cpp:330-337 | releasing moves events from the heap to the output and loses none |
| Merge.DrainOn | src/fileWorker.cpp:330-349 | from every state a drain can be carried on to its end, drained or stopped by the count |
| Merge.NothingDueMeansDrained | src/fileWorker.cpp:330 | when the guard of the drain loop fails for a least event, it fails for every least event |
| Merge.DrainedLeavesOnlyLater | src/fileWorker.cpp:330-349 | a drain that ran to its end leaves only events strictly later than lastEventTime |
| Turns.RunAccounts | src/fileWorker.cpp:325-364 | over any run of turns, released and waiting events are the start events and those of the first n calls, n growing by one for each notification, and the watermark is that of call n |
| Turns.RunInOrder | src/fileWorker.cpp:325-364 | if the file keeps up, all that any run releases is in time order, across loads, restarts of the file and early stops |
| Turns.DrainsInTheEnd | src/fileWorker.cpp:327-363 | a worker woken after every drain comes to a drain that is not stopped by the count, however many start events there are |
| Turns.RunOutOfOrder | src/fileWorker.cpp:325-364 | if the file does not keep up, some run in which every turn is woken releases an event after a later one, whatever the start events |
| Turns.SortedIff | src/fileWorker.cpp:325-364 | the output of every run in which each turn is woken is in time order iff the file keeps up |
| FileWorkers.PairsOneMore | src/fileWorker.cpp:287-294 | a connection with one end here leads its id to its pair of addresses, replacing that of an earlier line with this id |
| FileWorkers.OneConnMore | src/fileWorker.cpp:287-312 | a connection with one end here adds its id and one start event; any other adds nothing |
| FileWorkers.StartEventsNonnegative | src/fileWorker.cpp:303-311 | start events precede time zero only when a client connection does |
| FileWorkers.StartEventsExactly | src/fileWorker.cpp:287-312 | the heap is seeded with each start event as often as a line with an end here calls for it |
| FileWorkers.ConfiguredName | src/fileWorker.cpp:282-294 | a connection configured with dotted addresses and valid ports is named by exactly that text |
| FileWorkers.SecondsRead | src/fileWorker.cpp:208-209 | a printed number of seconds is read as the milliseconds that are over, rounded down |
| FileWorkers.ConnLineSays | src/fileWorker.cpp:273-313 | what the columns of a connections line mean: id, the two ends in order, and when it starts; a source of ours is to CONNECT at 1000*start, a destination of ours to SRV_START a second earlier but not before 0 |
| FileWorkers.PrintedIPsAreListed | src/fileWorker.cpp:255-260 | a file of addresses, one a line, lists exactly these |
| FileWorkers.FileWorker.EventLineSays | src/fileWorker.cpp:203-231 | what the columns of an events line mean, for any pass: the event it loads if connection and address are ours, field by field, and the watermark it leaves in any case |
| FileWorkers.FileWorker.OneLineCall | src/fileWorker.cpp:166-241 | a call that is to load one event, from a file of one line of ours, loads just that event and leaves its time as lastEventTime |
| FileWorkers.FileWorker.SeededByLine | src/fileWorker.cpp:263-317 | after a connections file of one line is read, ids, the name of the pair and the start event are those the line says |
| FileWorkers.FileWorker.ProcessRecord | src/fileWorker.cpp:203-231 | one record is taken as the replay takes it: filters, event, counters and watermark |
| FileWorkers.GoodLines | src/fileWorker.cpp:103-105 | the records of a read are the lines with eight fields, in order |
| FileWorkers.FileWorker.ProcessBatch | src/fileWorker.cpp:202-232 | the records of a batch are taken one after the other, and those that pass are counted |
| FileWorkers.FileWorker.ReadBatch | src/fileWorker.cpp:233-238 | a read takes the next lines up to the limit, returns the records among them, and keeps the stream at a line boundary |
| FileWorkers.FileWorker.StartOver | src/fileWorker.cpp:184-200 | the stream is back at the first line, and duration and pass count are those of the replay's start over |
| FileWorkers.FileWorker.Turn | src/fileWorker.cpp:182-239 | one turn takes the batch at hand, or starts over when it is empty, and reads on from the right line with the right limit |
| FileWorkers.FileWorker.LoadEvents | src/fileWorker.cpp:166-241 | whenever the loop ends at all, what it adds to the heap, the fields it leaves and the place of the stream are those of one call of the reads |
| FileWorkers.FileWorker.ReadIPs | src/fileWorker.cpp:247-261 | myIPs becomes the trimmed one-field lines of the address file |
| FileWorkers.FileWorker.SeedConnection | src/fileWorker.cpp:274-316 | one connection line extends ids, address pairs and heap together; a line whose id is no number changes nothing |
| FileWorkers.FileWorker.SeedConnections | src/fileWorker.cpp:263-317 | ids and heap hold exactly what the listed connections with an end here call for, and each id leads to the addresses of its last line |
| FileWorkers.FileWorker.Startup | src/fileWorker.cpp:243-323 | the heap of a started worker is the start events and the events of the first call of loadEvents, nothing is released, and the run invariant holds |
| FileWorkers.FileWorker.LoadNext | src/fileWorker.cpp:166-241 | the call after n others adds to the heap exactly the events of the replay's call n+1 and leaves its watermark |
| FileWorkers.FileWorker.Refill | src/fileWorker.cpp:361 | a load of the thread is the load of the turns, and keeps the run invariant with one call more |
| FileWorkers.FileWorker.ReleaseNext | src/fileWorker.cpp:331-338 | the event released is one the heap has no earlier than, is due, and is counted |
| FileWorkers.FileWorker.Drain | src/fileWorker.cpp:328-349 | a drain releases events due in turn, until the heap has none that is due, or until the count exceeds E and starts over |
| FileWorkers.FileWorker.Turnover | src/fileWorker.cpp:327-363 | one turn of the loop is a turn of the sequence: a drain, and the next call of loadEvents if notified |
| FileWorkers.FileWorker.Loop | src/fileWorker.cpp:325-364 | the thread goes through one turn for each notification flag; at the end pushed and waiting events are the start events and those of all calls, and what was pushed is sorted if the file keeps up |
| Connections.InetPtonIff | src/connections.cpp:5-11 | a text is read as an address exactly when it is that address in dotted decimal |
| Connections.IPPortStringDetermines | src/connections.cpp:31-42 | the address and port string determines address and port, and a connection string between IPv4 ends is made of two of them |
| Connections.PortReadsBack | src/connections.cpp:8-10 | a configured port below 65536 is the port printed |
| Connections.CmpIsEquality | src/connections.cpp:19-29 | cmpSockAddrIn is equality of family, address and port |
| Connections.PrintedEnd | src/connections.cpp:31-42 | address and port are printed from network byte order, most significant byte first |
| Connections.ConnStringDetermines | src/connections.cpp:45-70 | two connection strings are equal iff the addresses are, and the ports as far as the first end's family has them printed |
| Connections.NamesAgreeWithComparison | src/connections.cpp:13-29 | between IPv4 ends, equal connection strings means equal pairs under cmpSockAddrIn, and the other way round |
| ConnectionIndex.BuildIndex | src/eventHandler.cpp:162-176 | every configured connection's name is in the table, no other is, and each leads to a connection of that name, in whatever order they are entered |
| ConnectionIndex.LookupAgreesWithScan | src/eventHandler.cpp:289-300 | a lookup hits iff some configured pair equals (peer, local), and returns the id of such a pair |
| Events.DueCount | src/eventHandler.cpp:190 | the events counted as due are the longest front of the queue with nonnegative times up to now |
| EventHandlers.EventHandler.constructor | src/eventHandler.cpp:309-330 | the counters start at zero and the connection tables empty |
| EventHandlers.EventHandler.Startup | src/eventHandler.cpp:162-181 | the name table indexes exactly the configured connections |
| EventHandlers.EventHandler.NewConnectionUpdate | src/eventHandler.cpp:84-91 | the new socket is entered in all tables, the tables keep agreeing with each other and with the configuration |
| EventHandlers.EventHandler.AcceptNewConnection | src/eventHandler.cpp:258-307 | an accepted socket is entered in all tables under a configured connection whose source is the peer and whose destination is the local end, iff there is one; otherwise, and when the kernel fails, no table changes |
| EventHandlers.EventHandler.LookupJoins | src/eventHandler.cpp:289-300 | after startup, the handler's lookup is the structural scan |
| EventHandlers.EventHandler.Send | src/eventHandler.cpp:135-144 | a SEND is passed on iff its connection has a socket, nothing to receive, nothing pending with its own bytes counted, and its gap has passed; otherwise it is put aside |
| EventHandlers.EventHandler.Await | src/eventHandler.cpp:106-109 | a WAIT adds its value to what the connection is to receive |
| EventHandlers.EventHandler.Connect | src/eventHandler.cpp:115-132 | a CONNECT of a configured connection whose connect succeeds is registered, and any other changes nothing |
| EventHandlers.EventHandler.Dispatch | src/eventHandler.cpp:94-160 | all tables after one event, by its kind; the tables keep agreeing, and a SEND of a positive number of bytes is put aside |
| EventHandlers.EventHandler.HandlePulled | src/eventHandler.cpp:193-204 | a pulled event is counted, may send one signal, and is dispatched once, with the effect of dispatch on all tables |
| EventHandlers.EventHandler.PullDue | src/eventHandler.cpp:190-235 | one turn dispatches exactly the due events at the front of the queue, in order, and none when it kept no time; it keeps the time of the first that is not due, asking again when the queue was found empty; the counter has gone up by as many, or starts over if that is more than half the quota |
| EventHandlers.StillFresh | src/eventHandler.cpp:84-91 | descriptors that differ from each other and from those in use still do after some of them were put to use |
| EventHandlers.EventHandler.Serve | src/eventHandler.cpp:183-307 | any run of arrivals, turns with their connects, and accepts, with unused descriptors: tables, index and configuration keep agreeing, and dispatched and queued events are those that arrived, in order |
| Signalling.CountersMove | src/eventHandler.cpp:194-222 | a pull adds one to the counter and signals at multiples of E/10 not yet asked at; the end of a pass sets the counter to 0 iff it is above E/2 and leaves the last request |
| Signalling.CounterStaysLow | src/eventHandler.cpp:215-222 | over any run, after the end of a pass the counter is at most E/2, and each pull since has added one |
| Signalling.PullKeeps | src/eventHandler.cpp:194-201 | a signal is sent exactly at multiples of K: the guard on the last request never suppresses a due one |
| Signalling.EndOfPassKeeps | src/eventHandler.cpp:215-222 | a reset of the counter loses less than K handled events, and only after five signals' worth |
| Signalling.RunKeeps | src/eventHandler.cpp:190-222 | over any run, handled events are K a signal, plus what resets lost, plus what the counter has since |
| Signalling.SignalsKeepUp | src/eventHandler.cpp:194-222 | S*K <= H < (S+R+1)*K for H events, S signals and R resets, and at most 2K-1 events from one signal to the next |
| PullLoop.QueueMoveKeeps | src/eventQueue.cpp:53-102 | no step inside the queue, of either thread, disturbs what the loop has handled or was promised |
| PullLoop.GettingKeeps | src/eventHandler.cpp:193-205 | no pull that the loop makes fails, and the job it gets is the next one added |
| PullLoop.MoveKeeps | src/eventHandler.cpp:183-235 | every step of producer, queue and loop succeeds and keeps order, promise and counts |
| PullLoop.PlayKeeps | src/eventHandler.cpp:183-235 | so does every run, and the queue's history is exactly what the producer fed it |
| PullLoop.EachJobHandledOnce | src/serverWorker.cpp:183-194 | for the handler's loop and the server's, over any interleaving: jobs are handled in the order added, once each, not before their time, although the server ignores whether getEvent succeeded |
| PullLoop.HandlerSignalsKeepUp | src/eventHandler.cpp:190-222 | the signalling bounds hold for the handler's loop over the interleaved queue, with K = E/10 |
| PullLoop.StopsOnlyWhenNothingIsDue | src/eventHandler.cpp:190 | the loop leaves off pulling iff it knows of no event or of one that is not due, and calls getEvent otherwise |
| PullLoop.TurnCompletes | src/eventHandler.cpp:190-235 | from any state of any run, a turn left to itself ends after a bounded number of own steps and has handled exactly the due front of the queue, in order, at its clock; so for the server's loop |
| PullLoop.DueJobsAreHandled | src/serverWorker.cpp:169-194 | after any run there are moves of the loop alone after which exactly the jobs due among those added and not yet handled have been handled |
| Pipeline.DrainingKeeps | src/fileWorker.cpp:330-336 | what the worker releases is what the queue is fed, in the same order |
| Pipeline.ActKeeps | src/fileWorker.cpp:325-364 | every step of worker, queue and handler succeeds and keeps the pipeline's invariant |
| Pipeline.WorkerGoesOn | src/fileWorker.cpp:325-364 | the worker is never stuck: it can go on by itself or inside addEvent |
| Pipeline.DrainStep | src/fileWorker.cpp:330-349 | a step of the drain loop releases the next due event of the turn's drain, counts it, or ends the drain as a drain may end |
| Pipeline.WorkerTakesTurns | src/fileWorker.cpp:325-364 | over every interleaving the worker's steps make up turns, with one load for each wake-up |
| Pipeline.StartedWorkerStarts | src/fileWorker.cpp:243-323 | a worker whose startup has returned is where the pipeline's runs begin |
| Pipeline.EndToEnd | src/eventHandler.cpp:183-212 | over every interleaving: the dispatched events are a prefix of the released ones, none is dispatched before its time, released and waiting events are the start events and those of all calls of loadEvents, and both sequences are sorted if the file keeps up |
| Pipeline.DueIsDispatched | src/eventHandler.cpp:183-235 | from any point of any run, the handler alone comes to the end of its turn and has then dispatched exactly the due ones among the events pushed and not yet dispatched |

## Left out

- Sockets, epoll, eventfd, mmap and the opening of files: their results are parameters (texts, descriptors, wake-ups, clock readings), and new descriptors are assumed not to be in use.
- Logging, including the print of the use count of a shared pointer before its node is deleted, and reference counts in general.
- Several events files, and `loadEvents` in mmap mode: `loadMMapFile` starts at the head of the buffer in every call (src/fileWorker.cpp:119-120), so the order claims do not hold there. With one file in stream mode the iterator tests of lines 185-187 are taken as at the end.
- FileWorkers.FileWorker.LoadEvents: is stated for files from which it returns and whose records hold readable numbers; a number that does not parse ends the program with an exception nobody catches.
- Turns.SortedIff: is stated for start events and file times that are not negative; a start event before zero is never due and blocks the heap.
- FileWorkers.FileWorker.SeedConnections: is stated for connection files whose other numbers can be read; an address that inet_pton rejects leaves memory uninitialised, which is taken to be zero.
- Replay.SameTruncation: seconds are exact reals, so floating-point rounding is not modelled; nor are the widths of int and long int in sums and products, nor hexadecimal numbers and infinities in stod.
- Numbers.Thousandfold: stands for doubles by exact reals; exponents are not read.
- Signalling.SignalsKeepUp: needs a quota of at least ten, because below that the source divides by zero.
- QueueRefinement.RunsAreRaceFree: the memory model is sequential consistency, with the constructor before both threads; qName and the memory of the atomics themselves are not part of it.
- EventHandlers.EventHandler.PullDue: has no concurrent producer; the loop against one is in PullLoop, where a turn handles the same DueCount events (PullLoop.TurnCompletes).
- EventHandlers.EventHandler.AcceptNewConnection: the result is not modelled, because the source falls off the end of the function without returning one.
- EventQueues.EventHeap.NextEvent: the heap is a multiset whose top is any least event; the array inside the standard library's priority queue is not modelled.
- FileWorkers.FileWorker.Drain: what is passed to outEvents and sendReq is kept as a list in the classes; the queue itself is behind it in Pipeline.
- `checkDeferred`: it would dispatch again every SEND put aside, and each dispatch adds its bytes once more, so it has no end to prove. Deferred sends are not claimed to complete.
- That the file worker never starves the handler: `fileEventsAddedCount` carries over between drains and notifications coalesce.
- The condition variable that the reset of the counter notifies, and `isRunning`: runs of any length stand for stopping at any time.
- ServerWorker beyond its pull loop, the send and receive workers, the poll handler and command-line handling.
- The meaning of SEND and RECV for file events: the same field is compared with addresses and with "SEND" (src/fileWorker.cpp:212-214), and is carried as it is.
