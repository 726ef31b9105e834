# Models of the metrics queue, the logger, the router and some smaller algorithms

This project models the parts of the server whose correctness is hard to see, in Dafny 4.11, and
proves what they are for. `dafny verify dfyconfig.toml` checks all of it.

## What is modelled

**The lock-free metrics queue** (`src/queue/concurrentqueue.hpp`), on the path that
`QueueManager` takes: `enqueue` and `try_dequeue` without tokens. Its pieces run in any number of
threads at once, so each piece is a transition system: a `State` with the shared fields and the
local variables of every thread, and a `Step` function with one step per atomic load, store,
fetch_add or compare_exchange, in the order of the source. `Run` applies an arbitrary schedule of
steps, so a statement about `Run` is one about all interleavings. Fields called auxiliary in their
comments are written and never read by the protocol; they record history. The pieces are stacked:

| module | what it models |
|---|---|
| `FreeList` | the CAS and reference-count free list |
| `Tickets` | how consumers claim indices: `dequeueOptimisticCount`, `dequeueOvercommit`, `headIndex`, `tailIndex` |
| `BlockIndex` | the circular block index with its replaced headers |
| `SubQueue` | one producer's blocks, filled by `enqueue_bulk`, found through the index, emptied, counted and given back by consumers |
| `BlockOwnership` | who owns which block, and what one producer's steps may do to the others |
| `ProducerQueue` | `Tickets` on top of `SubQueue`: one producer as its callers see it |
| `LoneEnqueue`, `LoneDequeue` | all steps of one undisturbed `enqueue_bulk` or `dequeue_bulk`, one after the other |
| `WholeQueue` | all producers on one pool of blocks; `try_dequeue` |
| `CircularIndex` | the 64-bit arithmetic on indices, refining the unbounded one |
| `ThreadHash` | the growing chain of hash tables from threads to producers |

`enqueue` is `enqueue_bulk` of one element and `dequeue` is `dequeue_bulk` of at most one; in both
pairs the atomic accesses and their order are the same, so each pair has one model. In `SubQueue`
the pool of free blocks is a set, from which a block is taken and to which it is given back in one
step: the initial pool, the free list and malloc together. `FreeList.Safety` is why a block taken
from the free list is nobody else's.

**The logger** (`src/log/NanoLog.cpp`, `src/log/NanoLog.hpp`). `LogQueue` is the guaranteed
logger's queue of buffers, again as a transition system, with the drain loop at shutdown as a
method. `LogLine` is the class `NanoLogLine` with its byte buffer, encoder and decoder.

**The HTTP router** (`src/router/router.hpp`, `src/router/split.hpp`), as methods with the loops of
the source over a sorted vector of patterns: module `Router`.

**Smaller algorithms**, as methods and classes with the loops of the source: `IsoDate`
(`src/util/date.cpp`), `LineProtocol` (`src/client/builder.cpp`) and `WordWrap`
(`TextFlow::Column::iterator` in `src/util/clara.hpp`).

`Arithmetic`, `Collections` and `Texts` hold what these modules share.

## What turned out not to hold

- The router does not consider the configured 404 handler when every path is sorted before the
  request (exactly then: `Router.NotFoundExactly`; an input: `Router.NotFoundMissed`).
- The router's binary search passes over matching patterns that are sorted before the request. Of the
  requests made of segments that do not start with `{`, those it serves whatever is configured are
  exactly the ones that have segments, no slash at the end, and no segment that starts beyond `{`
  (`Router.RoutedAsDefinedExactly`, `Router.SearchCompleteExactly`; an input: `Router.MatchMissed`).
- `src/router/router.hpp:152-154` promises a second attempt without the slash at the end when nothing
  matches with it. A 404 handler answers the first attempt, so that there is none (exactly when:
  `Router.TrailingSlashExactly`; an input: `Router.SecondAttemptMissed`).
- For the widths that the word-wrapper's assertions allow, iteration over a column need not end, and
  its lines need not have all of the text. `WordWrap.CompleteExactly` says for every column when they
  do, in terms of the widths of the first and of the other lines and of the places where the text may
  be broken: text after the first line can get stuck in a width of one (`WordWrap.NarrowColumnSticks`),
  and a text is taken for an empty one if it starts with a newline, or if its first character does
  not fit into a first line of width one (`WordWrap.NarrowColumnSkips`).
- The comment at `src/queue/concurrentqueue.hpp:2918-2919` says that the division keeps a negative
  offset negative. It does not, because `BLOCK_SIZE` is unsigned; the slot is right nevertheless
  (`CircularIndex.SlotOfWrapped`).

## Model

| member | source | states |
|---|---|---|
| FreeList.Safety | src/queue/concurrentqueue.hpp:1424-1503 | in every interleaving of any number of `add` and `try_get` calls no node is handed out twice without an add in between, the list is a finite chain without repetition, the assertion in `try_get` never fires, and when the exchange of the head is about to succeed the `next` read earlier is still the head's successor |
| FreeList.Accounting | src/queue/concurrentqueue.hpp:1431-1503 | the low 31 bits of a node's count are the list's own reference plus the threads inside `try_get` that hold it, and at most one thread per node is inside `add_knowing_refcount_is_zero` |
| FreeList.NothingStranded | src/queue/concurrentqueue.hpp:1431-1503 | when no call is in progress, exactly the nodes added and not taken since are reachable from the head, and no other keeps a reference or the flag |
| FreeList.TryGetAlone | src/queue/concurrentqueue.hpp:1438-1475 | an undisturbed `try_get`, wherever the other threads stand still, ends within six steps with exactly the head taken off the list and returned, or with nothing changed if there is none |
| FreeList.AddAlone | src/queue/concurrentqueue.hpp:1424-1503 | an undisturbed `add` ends within five steps with its node at the head, or, if a `try_get` in progress still refers to the node, with the node left for the last of these |
| FreeList.EndsAlone | src/queue/concurrentqueue.hpp:1424-1503 | from every state that can be reached a call left alone, whatever it is in the middle of, is through within eighteen steps |
| FreeList.StepKeepsInv | src/queue/concurrentqueue.hpp:1424-1503 | every atomic step keeps the invariant behind these |
| Tickets.ClaimsAreSafe | src/queue/concurrentqueue.hpp:2742-2790 | for any mix of single and bulk dequeues the claims cover the indices below `headIndex` one after the other, so none is claimed twice, and nobody who passed the second test claims past the tail |
| Tickets.GrantsFit | src/queue/concurrentqueue.hpp:2742-2758 | the counting argument: no more ticket positions are ever granted than elements were enqueued |
| Tickets.CountersMeetAtRest | src/queue/concurrentqueue.hpp:2521-2589 | with no dequeue in flight `headIndex` is `dequeueOptimisticCount` minus `dequeueOvercommit` |
| Tickets.AloneTakesAllItCan | src/queue/concurrentqueue.hpp:2742-2765 | with no other dequeue in progress an undisturbed one claims as many elements as there are, up to its maximum, and none exactly when there are none |
| Tickets.AloneTakesRoom | src/queue/concurrentqueue.hpp:2742-2765 | an undisturbed dequeue, wherever the other threads stand still, claims as many as `tailIndex`, `dequeueOptimisticCount` and `dequeueOvercommit` leave it, from `headIndex` on, and is over |
| Tickets.GrantedExactly | src/queue/concurrentqueue.hpp:2752-2760 | at the second test exactly those of a ticket's positions are granted that lie below the tail plus the overcommit first seen, so a bulk dequeue gets a part where it cannot get all, and pays back exactly if some are refused |
| BlockIndex.LookupFinds | src/queue/concurrentqueue.hpp:2908-2924 | through any header ever published, and whatever slot was its tail when read, the slot computed for a block number still in the index is that block's, with its base as key; the first assertion holds |
| BlockIndex.InsertKeeps | src/queue/concurrentqueue.hpp:2863-2893 | storing the next key reuses the oldest entry only, and only once its block was given back; every other block keeps its entry and value |
| BlockIndex.GrowSummary | src/queue/concurrentqueue.hpp:2926-2968 | a doubled index keeps every block's entry and value, has room, and leaves the replaced headers as good as before; the assertion after growing holds |
| BlockIndex.CopyEntries | src/queue/concurrentqueue.hpp:2942-2951 | the copying loop goes round the old index exactly once, from the entry after the tail to the tail |
| BlockIndex.NoRoomMeansFull | src/queue/concurrentqueue.hpp:2870-2887 | the index is grown only when all its entries are in use |
| BlockIndex.RewindSummary | src/queue/concurrentqueue.hpp:2895-2899 | rewinding the tail takes back the last insertion and nothing else |
| SubQueue.StepKeepsInv | src/queue/concurrentqueue.hpp:2592-2841 | no step of the producer or of a consumer touches anything out of bounds or null or fails one of the assertions, those of the lookups while undoing and of the writing loop included, and each keeps the whole invariant: contents, block values, counters, claims, deliveries |
| SubQueue.FindsSlot | src/queue/concurrentqueue.hpp:2908-2924 | a consumer's lookup finds its block's slot while the producer inserts, rewinds or grows; both assertions hold |
| SubQueue.UndoFinds | src/queue/concurrentqueue.hpp:2633-2639 | while undoing, the producer's own lookup finds the entry of the block to be undone, although the tail has been rewound past it; its assertions hold |
| SubQueue.WriteSafe | src/queue/concurrentqueue.hpp:2667-2736 | the assertions of the writing loop hold: there is a block to begin with, and the last element goes into the last block acquired |
| BlockOwnership.StepKeepsOwners | src/queue/concurrentqueue.hpp:2592-2841 | every block that belongs to a producer's queue holds elements, was acquired by the call in progress, or is about to be given back |
| BlockOwnership.StepsFit | src/queue/concurrentqueue.hpp:3016-3069 | a step of one producer's queue changes only blocks that no other one has, takes blocks only from the pool and gives them up only to the pool, and the queues still have none in common |
| ProducerQueue.StepRefines | src/queue/concurrentqueue.hpp:2457-2841 | every atomic step is, to callers, an append of all elements of a call, a removal of a claim's elements from the front, or nothing |
| ProducerQueue.NeverCrashes | src/queue/concurrentqueue.hpp:2457-2841 | in no run does a step fail an assertion, index out of bounds, or claim an index at or past the tail |
| ProducerQueue.EveryElementAccounted | src/queue/concurrentqueue.hpp:2457-2841 | in every state of every run each element enqueued is in the queue, in the hand of exactly one consumer, or delivered, and only one of these |
| ProducerQueue.Conservation | src/queue/concurrentqueue.hpp:2457-2841 | when no consumer is at work, what was delivered and what remains are together, as multisets, what was enqueued |
| ProducerQueue.EachConsumerInOrder | src/queue/concurrentqueue.hpp:2521-2841 | each consumer gets this producer's elements in the order they were enqueued, and each is the element of its index |
| ProducerQueue.LoneConsumerFifo | src/queue/concurrentqueue.hpp:2457-2589 | what a lone consumer has been given is a prefix of what was enqueued |
| ProducerQueue.BulkAllOrNothing | src/queue/concurrentqueue.hpp:2592-2739 | whatever happens during a bulk enqueue: if it returns true it shows entirely, with exactly the computed number of new blocks; if it returns false, or has not returned, not at all: elements, tail, tail block and blocks are as before; and it returns true exactly if it was never refused range, index, memory or a block |
| ProducerQueue.EveryElementFound | src/queue/concurrentqueue.hpp:2592-2739 | at every moment, also while a call fails after the index has grown, each element not yet moved out is found at its index through every header that lists its block |
| ProducerQueue.NoBlockLeaks | src/queue/concurrentqueue.hpp:2625-2645 | in every run, each step of a producer's queue keeps together the blocks of the pool and those in use for its elements, acquired by an enqueue in progress or on their way back, and none is both |
| ProducerQueue.BlocksRecycledSafely | src/queue/concurrentqueue.hpp:3016-3069 | no block of the pool holds an element still to be moved out, and a block's counter is the number of its finished dequeues |
| ProducerQueue.OneDequeuerGivesBack | src/queue/concurrentqueue.hpp:1562-1599 | of a block whose elements are all dequeued the entry was nulled or exactly one dequeuer is about to null it, and of no other |
| ProducerQueue.BlockReturnedOnce | src/queue/concurrentqueue.hpp:2569-2578 | in every run a block is put into the pool exactly once after its elements are all dequeued: it has been, or exactly one dequeuer is about to, never both, and never twice under one number |
| ProducerQueue.LengthStaysBelowHalf | src/queue/concurrentqueue.hpp:2465 | the leeway test keeps the queue shorter than half the range of its indices |
| LoneEnqueue.EnqueuesExactly | src/queue/concurrentqueue.hpp:2592-2739 | an undisturbed enqueue_bulk ends within a stated number of steps; returning true it has appended its elements, returning false contents and pool are as before; and if memory for the index is granted, and a block as long as the pool has one, it returns true exactly if, at its start, the new blocks fit the range of indices, there is an index, and the pool has that many blocks |
| LoneEnqueue.AloneEnds | src/queue/concurrentqueue.hpp:2592-2739 | its steps run out, with the invariant and the blocks in reach kept |
| LoneDequeue.DequeuesFront | src/queue/concurrentqueue.hpp:2521-2841 | an undisturbed dequeue or dequeue_bulk ends within five steps and eight more for the first element and five for each further one; it delivers elements from the front, in order, as many as the counters leave it while others stand still in their calls, and changes nothing in the storage if it delivers none; with no other dequeue in progress it delivers as many as there are, up to the maximum |
| WholeQueue.StepKeepsInv | src/queue/concurrentqueue.hpp:3016-3069 | all producers together, on one pool, keep the invariant of each and have no block in common |
| WholeQueue.EachRunsOnItsOwn | src/queue/concurrentqueue.hpp:2457-2841 | in every run of all producers each one goes through a run of its own, so what holds of one producer holds of each, whatever the others do |
| WholeQueue.NothingLost | src/queue/concurrentqueue.hpp:1090-1121 | conservation for each producer in runs of the whole queue |
| WholeQueue.EveryBlockInOnePlace | src/queue/concurrentqueue.hpp:3016-3069 | in every run of the whole queue each block is in the pool, or exactly one producer's queue uses it: for its elements, in an enqueue in progress, or on its way back; so no block is lost or shared |
| WholeQueue.ConcurrentQueue.FindBest | src/queue/concurrentqueue.hpp:1094-1108 | the scoring loop finds the fullest, and of these the first, of the first three producers that are not empty |
| WholeQueue.ConcurrentQueue.TryDequeue | src/queue/concurrentqueue.hpp:1090-1121 | it takes the front element of one producer or nothing; with no other call in progress it returns false exactly if all queues are empty, and else takes from the best |
| CircularIndex.ComparisonRange | src/queue/concurrentqueue.hpp:455-466 | of wrapped indices less than the whole range apart, the comparison agrees with that of unbounded ones exactly while they are within half of it |
| CircularIndex.LeewayTest | src/queue/concurrentqueue.hpp:2465 | the wrapped test passes exactly if the queue with one more block is shorter than half the range, and the assertion before it holds |
| CircularIndex.SizeIsExact | src/queue/concurrentqueue.hpp:1703-1708 | in every state of every run the wrapped indices give the true length |
| CircularIndex.TicketTests | src/queue/concurrentqueue.hpp:2746-2756 | on wrapped counters the tests of dequeue and of dequeue_bulk pass as on unbounded ones exactly while the difference is within half the range, and the wrapped difference is then the number of elements |
| CircularIndex.TicketsDecideAlike | src/queue/concurrentqueue.hpp:2742-2758 | within that range a thread that decides on wrapped counters makes the steps of the ticket protocol, with the same counts |
| CircularIndex.BlockBaseIs | src/queue/concurrentqueue.hpp:2913 | the mask gives the base of an index's block, wrapped or not |
| CircularIndex.AcquiresNewBlocks | src/queue/concurrentqueue.hpp:2609-2616 | the wrapped difference of the two masked indices is the number of blocks that the elements need, times the block size |
| CircularIndex.SlotOfWrapped | src/queue/concurrentqueue.hpp:2913-2923 | the unsigned division and the mask give the slot that many places from the tail slot, for blocks behind the tail and for those ahead of a rewound one, for every power-of-two capacity up to 2^59 |
| ThreadHash.NewCapacity | src/queue/concurrentqueue.hpp:3426-3429 | doubling ends at a power of two of which half is more than the count |
| ThreadHash.TablesNeverFill | src/queue/concurrentqueue.hpp:3351-3501 | every table of the chain, with lazy copies and after failed allocations, always has fewer keys than half plus a quarter of its slots |
| ThreadHash.ProbesEnd | src/queue/concurrentqueue.hpp:3372-3412 | no probe loop ever passes as many slots as its table has |
| ThreadHash.EveryThreadItsOwn | src/queue/concurrentqueue.hpp:3351-3501 | calls by one thread return the same producer, calls by different threads different ones |
| ThreadHash.RegisteredForGood | src/queue/concurrentqueue.hpp:3372-3412 | once a thread's call has returned a producer none of its later calls returns null |
| ThreadHash.NothingExactlyIfRefused | src/queue/concurrentqueue.hpp:3351-3501 | in every run, what a call returned is null exactly if memory was refused to it, during that same call, for a larger table or for the producer |
| ThreadHash.CallEnds | src/queue/concurrentqueue.hpp:3351-3501 | a call during which nobody else moves, when the resize flag is free, ends within a stated number of steps, returns exactly once, null exactly if it was refused memory, and leaves the flag free |
| ThreadHash.MissMeansAbsent | src/queue/concurrentqueue.hpp:3372-3412 | a search that ends at an empty slot proves that the thread is not in that table |
| ThreadHash.StepKeepsInv | src/queue/concurrentqueue.hpp:3351-3501 | every atomic step keeps the counting invariant, the probe paths and the resize flag's exclusion |
| LogQueue.StepKeepsInv | src/log/NanoLog.cpp:482-580 | no step of a writer or of the reader goes wrong, and each keeps the invariant |
| LogQueue.PoppedOnceInOrder | src/log/NanoLog.cpp:482-580 | each line is popped at most once, in the order of the slots, buffer by buffer, and each writer's lines in the order of its calls |
| LogQueue.EveryWriterItsSlot | src/log/NanoLog.cpp:523-531 | a writer with a slot writes into that slot of the buffer it was issued for, and no other writer has it |
| LogQueue.OneWriterSwitches | src/log/NanoLog.cpp:482-488 | exactly one writer sets up the next buffer, exactly when all slots of the current one are filled |
| LogQueue.PushEnds | src/log/NanoLog.cpp:523-538 | a `push` left alone at any point, in particular while it spins because it came too late for a slot, ends within eleven steps with its line under the next ticket, and everything that has a ticket and was not popped is ready in its slot |
| LogQueue.PushAlone | src/log/NanoLog.cpp:523-538 | the same from the call on, within ten steps: one ticket more, its slot ready and holding the line |
| LogQueue.IndexStaysSmall | src/log/NanoLog.cpp:523-537 | `m_write_index` exceeds the size by at most the number of writers, so it does not wrap around |
| LogQueue.Drain | src/log/NanoLog.cpp:682-686 | if all pushes are complete before shutdown, the drain loop writes every remaining line, in the order of the slots, and these are all the lines of all calls |
| LogLine.NumberOfBytes | src/log/NanoLog.cpp:114-119 | a number read back from its bytes is the number |
| LogLine.NanoLogLine.Resize | src/log/NanoLog.cpp:236-257 | room for the additional bytes, contents unchanged, used bytes within the buffer, through the move to the heap and every doubling |
| LogLine.NanoLogLine.Append | src/log/NanoLog.cpp:260-350 | each operator<< appends exactly the tagged encoding of its argument |
| LogLine.NanoLogLine.StringifyArgs | src/log/NanoLog.cpp:168-229 | decoding prints, after what was printed before, one text for each argument in their order, and stops exactly at the end: for an integer its decimal digits without leading zeros, their place values adding up to it, after a minus sign exactly if it is negative; for the other types their characters |
| LogLine.NanoLogLine.Stringify | src/log/NanoLog.cpp:143-166 | the whole line: time, level name, thread, file, function and the digits of the line number as given, in this order between their brackets and colons, then the arguments and a newline |
| LogLine.LogAndPrint | src/log/NanoLog.cpp:114-350 | the round trip for any sequence of arguments: what is printed shows each of them as it was given |
| LogLine.SignedIsInteger | src/log/NanoLog.cpp:168-229 | what printing an integer gives has bytes 48 to 57 only, at least one, no zero in front of others, with place values that add up to the number, and a byte 45 in front exactly for negative ones |
| LogLine.PrefixShows | src/log/NanoLog.cpp:143-166 | the parts of the prefix in their order, with the level in letters and the line number in digits |
| Texts.OneNumeral | src/log/NanoLog.cpp:168-229 | a number has one such numeral only, so these statements leave no choice |
| Router.Split | src/router/split.hpp:13-41 | the loop yields the non-empty stretches between slashes |
| Router.SplitUndoesBuild | src/router/split.hpp:13-41 | splitting a path built from segments gives back the segments, with or without a slash at the end |
| Router.MadePathsAreOk | src/router/router.hpp:59-83 | the constructor makes well-formed patterns of paths without empty segments inside and with a wildcard at the end only |
| Router.MadeExactly | src/router/router.hpp:59-83 | the constructor throws exactly if some segment starts with a brace and does not end with one, or starts with a colon; otherwise the path has its text, its segments and one handler for one method, and is a wildcard exactly if some segment is one |
| Router.MatchNotLess | src/router/router.hpp:424-430 | a matching pattern is never sorted before the request |
| Router.SearchSkipsNothing | src/router/router.hpp:424-430 | starting at the binary-search position skips no matching pattern |
| Router.HttpRouter.LowerBound | src/router/router.hpp:424-428 | the search finds the first path not sorted before the request |
| Router.HttpRouter.TryLonger | src/router/router.hpp:449-483 | the handler it settles on is that at the first place of the method in the pattern; what the loop for wildcard patterns shorter than the request settles agrees with the definition of a match, and otherwise it has captured what the next loop captures again |
| Router.HttpRouter.TrySegments | src/router/router.hpp:485-541 | the loop over the segments settles the request exactly if the pattern matches, with the captures of that match, and with the handler at the first place of the request's method in the pattern, or a refusal if the method is not there |
| Router.HttpRouter.RouteParameters | src/router/router.hpp:416-552 | for every request, with any slashes and any segments but a `~` before the end: what runs is the handler at the first place of the method in a path that is the request or matches it, a method is refused only by such a path without it, and the outcome is as defined from the binary-search position on; for requests whose segments start below `{`, without further slashes, the path is the first in the whole vector that matches, and the handler is given each named segment under the text between its braces, the remainder as the wildcard, and nothing else |
| Router.HttpRouter.Route | src/router/router.hpp:157-171 | the answer, with or without handlers for paths not found and methods not allowed, is that of the first attempt or, where it has none, of the one without the slash at the end; what runs is the handler that a path which is the request, or matches it, has for the method |
| Router.RemainderWithin | src/router/router.hpp:466-471 | the substring taken for a wildcard starts within the request, whatever slashes it has |
| Router.HttpRouter.CanRoute | src/router/router.hpp:190-267 | true and true, true and false, or false and false exactly when routing the same request runs a handler, refuses the method, or finds nothing; for requests whose segments start below `{`, exactly when the first matching path of the whole vector has the method, has not, or does not exist |
| Router.CapturesRebuild | src/router/router.hpp:446-551 | substituting the captured parameters and remainder into the matched pattern gives back the request path |
| Router.NotFoundExactly | src/router/router.hpp:430 | a request that nothing matches is passed to the 404 handler exactly if the last path is not sorted before it |
| Router.NotFoundMissed | src/router/router.hpp:430 | with the one path `/a` the request `/b` gets no answer, whatever handlers there are |
| Router.SearchCompleteExactly | src/router/router.hpp:424-430 | of requests without segments that start with `{`, those whose segments all start below it are exactly those for which no matching well-formed pattern is sorted before the request |
| Router.RoutedAsDefinedExactly | src/router/router.hpp:424-430 | of requests made of segments that do not start with `{`, with or without a slash at the end, exactly those with segments, none of which starts beyond `{`, and without that slash are routed as defined for all configured paths |
| Router.MatchMissed | src/router/router.hpp:424-430 | with the one path `/{id}` a request of one vertical bar after the slash matches and finds nothing |
| Router.TrailingSlashExactly | src/router/router.hpp:147-167 | a request that matches nothing with its slash at the end is answered as without it exactly if there is no 404 handler, or all paths are sorted before it, or it is not found without it either |
| Router.SecondAttemptMissed | src/router/router.hpp:163-167 | two paths and a 404 handler for which a request with a slash at the end gets that handler although a path matches without it |
| IsoDate.IsLeapYear | src/util/date.cpp:7-16 | the Gregorian rule |
| IsoDate.FindYear | src/util/date.cpp:33-42 | the year a day is in and its place in it |
| IsoDate.FindMonth | src/util/date.cpp:44-69 | the month, and the day's place in it |
| IsoDate.MonthTable | src/util/date.cpp:48-67 | the lengths of the twelve months |
| IsoDate.ToIsoDate | src/util/date.cpp:18-98 | for every microsecond from 1970 to the end of 9999 the printed fields form a valid date and time that add up to the input; the text has 27 characters, with hyphens, the T, colons, the point and the Z at their positions and the digits of the fields between them |
| IsoDate.PrintedOrder | src/util/date.cpp:71-97 | printed dates compare as strings like the times they stand for |
| IsoDate.Compare | src/util/date.cpp:18-98 | two outputs compare as strings like their inputs |
| LineProtocol.Clean | src/client/builder.cpp:12-63 | the characters of the text in their order, with a backslash before each comma, quote, equals sign, line end and backslash, and before each space where asked for, and nothing else; so a text without these stays as it is |
| LineProtocol.UnescapeUndoesEscape | src/client/builder.cpp:12-63 | unescaping undoes `clean`, with and without spaces |
| LineProtocol.Builder.AddTag | src/client/builder.cpp:72-77 | key, equals sign and the escaped text follow the other tags after a comma |
| LineProtocol.Builder.AddValue | src/client/builder.cpp:79-136 | key, equals sign and the value follow the other values after a comma: a word, the digits of the number with its sign and the letter of its type, or the escaped text between quotes |
| LineProtocol.Builder.EndRecord | src/client/builder.cpp:144-149 | name and tags, values and timestamp between spaces, and a newline |
| LineProtocol.SplitUndoesJoin | src/client/builder.cpp:72-149 | a reader that splits at unescaped and unquoted separators takes apart what was put together |
| LineProtocol.EscapedClosed | src/client/builder.cpp:12-63 | nothing within an escaped text is a separator to the reader |
| LineProtocol.QuotedClosed | src/client/builder.cpp:131-136 | nothing within a quoted value is a separator to the reader |
| LineProtocol.ReadBack | src/client/builder.cpp:66-154 | the reader recovers every record: tags, values with their types, timestamps |
| LineProtocol.Write | src/client/builder.cpp:66-154 | records written with the builder are read back as they were |
| WordWrap.Iterator.CalcLength | src/util/clara.hpp:107-133 | the rest of the paragraph if it is short enough, else up to the last break without the whitespace before it, else all but one character and a hyphen |
| WordWrap.Iterator.Current | src/util/clara.hpp:159-163 | as many spaces as the indentation, slice and hyphen, within the width of the column |
| WordWrap.Iterator.Advance | src/util/clara.hpp:165-181 | the next line starts after one newline or else after all whitespace |
| WordWrap.Wrap | src/util/clara.hpp:84-181 | wherever nothing sticks, in particular for widths at least two above each indentation, iteration ends, every line fits and is cut as it should be, and the slices have in order all characters of the text but whitespace, unless the text is skipped |
| WordWrap.StuckExactly | src/util/clara.hpp:107-181 | a line stands still exactly if it has room for one character and may not be broken after it |
| WordWrap.SkipsExactly | src/util/clara.hpp:151-157 | the constructor takes a text for an empty one exactly if it is empty, starts with a newline, or cannot be broken after its first character, or starts with whitespace, in a first line of width one |
| WordWrap.CompleteExactly | src/util/clara.hpp:84-181 | for every text and all widths that the assertions allow: when iteration ends, and when its lines have all of the text but whitespace |
| WordWrap.NarrowColumnSticks | src/util/clara.hpp:151-181 | a text and a width, allowed by the assertions, for which iteration never ends |
| WordWrap.NarrowColumnSkips | src/util/clara.hpp:151-157 | a text of two letters and a width for which there are no lines |

## Left out

- Weak memory orders and fences: steps are sequentially consistent.
- Explicit producers, producer and consumer tokens, moving and swapping queues, and the branches for
  elements whose constructors or assignments throw: the server does not use them.
- The queue's modules as classes: the fields of the shared state are those of a value that `Step`
  replaces, because each statement is about all interleavings of steps of many threads.
- The chain through `Block::next` in `enqueue_bulk` is a sequence, so its link stores are not steps.
- `requisition_block` and `add_block_to_free_list` are one step each in `SubQueue`; `FreeList` has the
  steps of the list itself. The order initial pool, free list, malloc is not modelled.
- The number of producers in `WholeQueue` is fixed; one that is not created yet is one that is idle.
- FreeList.Safety: for fewer than 2^31 - 1 threads, so that the count never runs into the flag above it.
- Tickets.ClaimsAreSafe: counters are unbounded, because a thread that sleeps through 2^63
  operations within one call would compare stale 64-bit words; `CircularIndex.ComparisonRange` says
  how close two indices must be.
- The destructor, `MAX_SUBQUEUE_SIZE` (unlimited here) and the debugging locks of the queue.
- `recycle_or_create_producer` is one step of `ThreadHash`, which succeeds or finds no memory.
- ThreadHash.CallEnds: for a call that finds the resize flag free; one that finds it held by a thread
  that stands still, and its table nearly full, waits for that thread.
- Recycling of producers when threads exit, which is compiled out.
- Freeing of log buffers: the reader can pop a buffer before its last writer has counted itself, so
  buffers are kept alive.
- `RingBuffer`, which drops lines by design, and `FileWriter`.
- LogLine.NanoLogLine.Append: strings are without NUL; one with a NUL inside is cut short by the
  decoder.
- What doubles, thread ids, string literals and the time print as is a parameter of `LogLine`.
- Requests with a segment `~` before the end, which the router takes for its own wildcard.
- The parameters handed to the handler for methods not allowed, the handlers themselves, and their
  exceptions.
- Adding routes and its duplicate detection: any sorted vector of well-formed paths is the start.
- Microseconds before 1970 and after 9999 in `IsoDate`.
- Printing of floating-point values in `LineProtocol`, and names and keys with special characters.
- WordWrap.Wrap: one column with one text; rows of several columns are not modelled.
