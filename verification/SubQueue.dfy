/** One implicit producer's queue (struct ImplicitProducer): blocks of elements, found through the
block index, filled by the producer and emptied by any number of consumers.

A transition system again: one step per atomic access, plus one per element moved. Claims of
indices come from the ticket protocol (module Tickets), which is why `Claim` is enabled only
below the tail. `enqueue` is `enqueue_bulk` of one element, and `dequeue` is `dequeue_bulk` of at
most one: in both pairs the accesses and their order are the same. The pool of free blocks is
shared with other producers, so whatever the others may do to blocks this queue does not own is
a step of its own (`Others`). */
module SubQueue {

  import opened Arithmetic
  import opened BlockIndex
  import opened Collections

  type Tid = nat

  /** Stands for model::Metric, whose contents play no part. */
  datatype Metric = Metric(id: int)

  /** Half of the range of index_t. */
  const HALF: nat := 0x8000_0000_0000_0000

  /** `done` is elementsCompletelyDequeued. A slot is None once its element has been destroyed. */
  datatype Block = Block(slots: seq<Option<Metric>>, done: nat)

  datatype ProducerLabel =
    | PIdle
    | PNext         // next block needed? load headIndex, test for room in the index range
    | PRoom         // load the value of the next index entry
    | PGrow         // new_block_index
    | PKey          // store the entry's key
    | PTail         // store the index tail
    | PRequisition  // requisition_block
    | PReset        // reset_empty
    | PValue        // store the entry's value
    | PRewind       // no block: rewind the index tail
    | PNull         // ... and null the entry
    | PUndo         // null the entry of an earlier block of this call
    | PUndoRewind   // ... and rewind the index tail
    | PFree         // add_blocks_to_free_list
    | PWrite        // construct the next element; at last store tailIndex

  /** Locals of enqueue_bulk: the elements, the blocks acquired (chained through `next` in the
      source), how many of these are undone, how many are given back, the entry and the block being
      inserted, and how many elements are written. */
  datatype Producer = Producer(at: ProducerLabel, items: seq<Metric>, chain: seq<Bid>, undone: nat, freed: nat, entry: Eid, block: Bid, written: nat)

  datatype ConsumerLabel =
    | CIdle
    | LoadHeader  // headIndex is claimed; load blockIndex
    | LoadTail    // load the header's tail
    | LoadKey     // load the key at the tail
    | LoadValue   // load the value of the slot found
    | Read        // move one element out
    | Count       // set_many_empty
    | Clear       // the block is empty: null the entry
    | Release     // add_block_to_free_list

  /** Locals of dequeue_bulk: the indices start .. i - 1 are read and not yet counted, i .. end - 1
      are still to be read; `k` is the block being worked on, found at `slot` of header `header`,
      whose tail slot `tail` was block number `num`'s (auxiliary). */
  datatype Consumer = Consumer(at: ConsumerLabel, start: nat, i: nat, end: nat, k: nat, header: nat, tail: nat, num: nat, slot: nat, block: Bid)

  /** Who may touch a block. Auxiliary. */
  datatype Owner = Nobody | Number(k: nat) | Held | Leaving(t: Tid)

  datatype Delivery = Delivery(t: Tid, index: nat, value: Metric)

  /** Shared memory first, and what the last call of enqueue_bulk returned. Auxiliary: all elements enqueued so far, the deliveries in order, the
      block of every block number below the tail, the block numbers given back, the indices
      counted in their blocks, the indices read, and the owners of the blocks. */
  datatype State = State(
    tailIndex: nat, headIndex: nat, ix: Index, blocks: seq<Block>, free: set<Bid>, tailBlock: Bid,
    producer: Producer, answer: bool, threads: seq<Consumer>,
    enqueued: seq<Metric>, log: seq<Delivery>, home: seq<Bid>, cleared: set<nat>, counted: set<nat>,
    delivered: set<nat>, owner: seq<Owner>)

  datatype Action =
    | Enqueue(items: seq<Metric>)
    | Produce(memory: bool, got: Option<Bid>)  // the producer's next step; what malloc and the pool answer
    | Claim(t: Tid, count: nat)
    | Consume(t: Tid)
    | Others(blocks: seq<Block>, free: set<Bid>)

  /** The number of blocks that hold the indices below `tail`. */
  function Blocks(tail: nat): nat {
    (tail + BLOCK_SIZE - 1) / BLOCK_SIZE
  }

  /** The number of blocks enqueue_bulk sets out to acquire: the difference of two block bases. */
  function NewBlocks(tail: nat, count: nat): int {
    (tail + count - 1) / BLOCK_SIZE - (tail - 1) / BLOCK_SIZE
  }

  // ----- the producer

  /** The block that element number j of the call is constructed in: the tail block while there is
      room in it, then the acquired blocks. */
  function Target(s: State, j: nat): Bid {
    var k := (s.tailIndex + j) / BLOCK_SIZE;
    if k < Blocks(s.tailIndex) then s.tailBlock
    else if k - Blocks(s.tailIndex) < |s.producer.chain| then s.producer.chain[k - Blocks(s.tailIndex)]
    else s.tailBlock
  }

  /** The block number now being inserted. */
  function NextNumber(s: State): nat {
    Blocks(s.tailIndex) + |s.producer.chain|
  }

  /** The index entry that the producer's own lookup finds for block number k. */
  function FoundEntry(ix: Index, k: nat): Eid
    requires Usable(ix)
  {
    var h := Current(ix);
    h.index[SlotFor(h, h.tail, ix.entries[h.index[h.tail]].key, k)]
  }

  /** The assertions of the producer's own lookup of block number k. */
  predicate LookupSafe(ix: Index, k: nat) {
    Usable(ix) &&
    var h := Current(ix);
    && ix.entries[h.index[h.tail]].key != INVALID_BLOCK_BASE
    && FoundEntry(ix, k) < |ix.entries|
    && ix.entries[FoundEntry(ix, k)].key == k * BLOCK_SIZE && ix.entries[FoundEntry(ix, k)].value.Some?
  }

  /** The assertions of the writing loop: there is a block to begin with, and the call's last element
      goes into the last of its blocks. */
  predicate BlocksSuffice(tail: nat, count: nat, acquired: nat) {
    && (tail % BLOCK_SIZE != 0 || acquired > 0 || count == 0)
    && tail + count <= (Blocks(tail) + acquired) * BLOCK_SIZE
    && (acquired > 0 ==> tail + count > (Blocks(tail) + acquired - 1) * BLOCK_SIZE)
  }

  /** Nothing the producer's next step touches is out of bounds or null, and none of its assertions
      fails. */
  predicate ProducerSafe(s: State) {
    var p := s.producer;
    match p.at
    case PIdle => true
    case PNext => |p.chain| != NewBlocks(s.tailIndex, |p.items|) ==> s.headIndex <= NextNumber(s) * BLOCK_SIZE
    case PRoom => s.ix.headers == [] || Usable(s.ix)
    case PGrow => Usable(s.ix) && Usable(Grow(s.ix)) && s.ix.headers != []
                  && Grow(s.ix).entries[NextEntry(Grow(s.ix))].key == INVALID_BLOCK_BASE
    case PKey => Usable(s.ix) && p.entry == NextEntry(s.ix)
    case PTail => Usable(s.ix)
    case PRequisition => true
    case PReset => p.block < |s.blocks|
    case PValue => p.entry < |s.ix.entries| && (s.tailIndex % BLOCK_SIZE != 0 || p.chain != [] ==> s.home + p.chain != [])
    case PRewind => Usable(s.ix)
    case PNull => p.entry < |s.ix.entries|
    case PUndo => p.undone < |p.chain| ==> LookupSafe(s.ix, Blocks(s.tailIndex) + p.undone)
    case PUndoRewind => Usable(s.ix)
    case PFree => p.freed < |p.chain| ==> p.chain[p.freed] < |s.blocks| == |s.owner|
    case PWrite => && BlocksSuffice(s.tailIndex, |p.items|, |p.chain|)
                   && (p.written < |p.items| ==> Target(s, p.written) < |s.blocks| && |s.blocks[Target(s, p.written)].slots| == BLOCK_SIZE)
  }

  function GotoP(s: State, at: ProducerLabel): State {
    s.(producer := s.producer.(at := at))
  }

  const IDLE_PRODUCER: Producer := Producer(PIdle, [], [], 0, 0, 0, 0, 0)

  /** Deciding whether another block is needed, and where its index entry goes. */
  function PlanStep(s: State, memory: bool): State
    requires ProducerSafe(s)
  {
    var p := s.producer;
    if p.at.PNext? then
      if |p.chain| == NewBlocks(s.tailIndex, |p.items|) then GotoP(s, PWrite)
      else if NextNumber(s) * BLOCK_SIZE + BLOCK_SIZE - s.headIndex >= HALF then GotoP(s, PUndo)
      else GotoP(s, PRoom)
    else if p.at.PRoom? then
      if s.ix.headers == [] then GotoP(s, PUndo)
      else if HasRoom(s.ix) then s.(producer := p.(at := PKey, entry := NextEntry(s.ix)))
      else GotoP(s, PGrow)
    else if p.at.PGrow? then
      if memory
      then s.(ix := Grow(s.ix), producer := p.(at := PKey, entry := NextEntry(Grow(s.ix))))
      else GotoP(s, PUndo)
    else s
  }

  /** Inserting the entry. */
  function InsertStep(s: State): State
    requires ProducerSafe(s)
  {
    var p := s.producer;
    if p.at.PKey? then GotoP(s.(ix := StoreKey(s.ix)), PTail)
    else if p.at.PTail? then GotoP(s.(ix := StoreTail(s.ix)), PRequisition)
    else s
  }

  /** Getting hold of the block. */
  function AcquireStep(s: State, got: Option<Bid>): State
    requires ProducerSafe(s) && (got.Some? ==> got.value < |s.owner|)
  {
    var p := s.producer;
    if p.at.PRequisition? then
      if got.None? then GotoP(s, PRewind)
      else s.(producer := p.(at := PReset, block := got.value), free := s.free - {got.value}, owner := s.owner[got.value := Held])
    else if p.at.PReset? then GotoP(s.(blocks := s.blocks[p.block := s.blocks[p.block].(done := 0)]), PValue)
    else if p.at.PValue? then
      s.(ix := StoreValue(s.ix, p.entry, Some(p.block)),
         owner := if p.block < |s.owner| then s.owner[p.block := Number(NextNumber(s))] else s.owner,
         producer := p.(at := PNext, chain := p.chain + [p.block]))
    else s
  }

  /** Taking back what was inserted, when something could not be had. */
  function UndoStep(s: State): State
    requires ProducerSafe(s)
  {
    var p := s.producer;
    if p.at.PRewind? then GotoP(s.(ix := Rewind(s.ix)), PNull)
    else if p.at.PNull? then GotoP(s.(ix := StoreValue(s.ix, p.entry, None)), PUndo)
    else if p.at.PUndo? then
      if p.undone >= |p.chain| then GotoP(s, PFree)
      else s.(ix := StoreValue(s.ix, FoundEntry(s.ix, Blocks(s.tailIndex) + p.undone), None),
              producer := p.(at := PUndoRewind, undone := p.undone + 1))
    else if p.at.PUndoRewind? then GotoP(s.(ix := Rewind(s.ix)), PUndo)
    else if p.at.PFree? then
      if p.freed >= |p.chain| then s.(producer := IDLE_PRODUCER, answer := false)
      else s.(free := s.free + {p.chain[p.freed]}, owner := s.owner[p.chain[p.freed] := Nobody],
              producer := p.(freed := p.freed + 1))
    else s
  }

  /** Constructing the elements, and at last publishing them. */
  function WriteStep(s: State): State
    requires ProducerSafe(s) && s.producer.at.PWrite?
  {
    var p := s.producer;
    if p.written < |p.items|
    then s.(blocks := SetSlot(s.blocks, Target(s, p.written), s.tailIndex + p.written, Some(p.items[p.written])),
            producer := p.(written := p.written + 1))
    else s.(tailIndex := s.tailIndex + |p.items|,
            tailBlock := if p.chain == [] then s.tailBlock else p.chain[|p.chain| - 1],
            home := s.home + p.chain, enqueued := s.enqueued + p.items,
            producer := IDLE_PRODUCER, answer := true)
  }

  predicate Planning(at: ProducerLabel) {
    at.PNext? || at.PRoom? || at.PGrow?
  }

  function ProducerStep(s: State, memory: bool, got: Option<Bid>): State
    requires ProducerSafe(s) && (got.Some? ==> got.value < |s.owner|)
  {
    var at := s.producer.at;
    if at.PIdle? then s
    else if Planning(at) then PlanStep(s, memory)
    else if at.PKey? || at.PTail? then InsertStep(s)
    else if at.PRequisition? || at.PReset? || at.PValue? then AcquireStep(s, got)
    else if at.PWrite? then WriteStep(s)
    else UndoStep(s)
  }

  // ----- consumers

  /** Nothing the consumer's next step touches is out of bounds or null; for a lookup this includes
      the assertions of get_block_index_index_for_index. */
  predicate ConsumerSafe(s: State, th: Consumer) {
    match th.at
    case CIdle => true
    case LoadHeader => s.ix.headers != []
    case LoadTail => th.header < |s.ix.headers|
    case LoadKey => th.header < |s.ix.headers| && Sound(s.ix, s.ix.headers[th.header]) && th.tail < |s.ix.headers[th.header].index|
                    && s.ix.entries[s.ix.headers[th.header].index[th.tail]].key != INVALID_BLOCK_BASE
    case LoadValue => th.header < |s.ix.headers| && Sound(s.ix, s.ix.headers[th.header]) && th.slot < |s.ix.headers[th.header].index|
                      && s.ix.entries[s.ix.headers[th.header].index[th.slot]].key == th.k * BLOCK_SIZE
                      && s.ix.entries[s.ix.headers[th.header].index[th.slot]].value.Some?
    case Read => th.block < |s.blocks| && |s.blocks[th.block].slots| == BLOCK_SIZE
                 && s.blocks[th.block].slots[th.i % BLOCK_SIZE].Some?
    case Count => th.start <= th.i && th.block < |s.blocks| && s.blocks[th.block].done + (th.i - th.start) <= BLOCK_SIZE
                  && th.header < |s.ix.headers| && s.ix.headers[th.header].index != []
    case Clear => th.header < |s.ix.headers| && Sound(s.ix, s.ix.headers[th.header]) && th.slot < |s.ix.headers[th.header].index|
                  && th.block < |s.owner|
    case Release => th.block < |s.owner| && th.header < |s.ix.headers| && s.ix.headers[th.header].index != []
  }

  function GotoC(s: State, t: Tid, th: Consumer): State
    requires t < |s.threads|
  {
    s.(threads := s.threads[t := th])
  }

  /** Where reading block k of the claim ends. */
  function Stop(th: Consumer): nat {
    Min(th.end, (th.k + 1) * BLOCK_SIZE)
  }

  /** On to the claim's next block, if any, at the next slot of the same header. */
  function Onward(th: Consumer, capacity: nat): Consumer
    requires capacity > 0
  {
    if th.i >= th.end then th.(at := CIdle)
    else th.(at := LoadValue, start := th.i, k := th.k + 1, slot := (th.slot + 1) % capacity)
  }

  function LookStep(s: State, t: Tid): State
    requires t < |s.threads| && Looking(s.threads[t].at) && ConsumerSafe(s, s.threads[t])
  {
    var th := s.threads[t];
    if th.at.LoadHeader? then GotoC(s, t, th.(at := LoadTail, header := |s.ix.headers| - 1))
    else
      var h := s.ix.headers[th.header];
      if th.at.LoadTail? then
        var num := if th.header == |s.ix.headers| - 1 then s.ix.count else h.top;
        GotoC(s, t, th.(at := LoadKey, tail := h.tail, num := if num > 0 then num - 1 else 0))
      else if th.at.LoadKey? then
        GotoC(s, t, th.(at := LoadValue, slot := SlotFor(h, th.tail, s.ix.entries[h.index[th.tail]].key, th.k)))
      else
        GotoC(s, t, th.(at := Read, block := s.ix.entries[h.index[th.slot]].value.value))
  }

  predicate Looking(at: ConsumerLabel) {
    at.LoadHeader? || at.LoadTail? || at.LoadKey? || at.LoadValue?
  }

  function SetSlot(blocks: seq<Block>, b: Bid, x: nat, value: Option<Metric>): seq<Block> {
    if b < |blocks| && |blocks[b].slots| == BLOCK_SIZE
    then blocks[b := blocks[b].(slots := blocks[b].slots[x % BLOCK_SIZE := value])]
    else blocks
  }

  function ReadStep(s: State, t: Tid): State
    requires t < |s.threads| && s.threads[t].at.Read? && ConsumerSafe(s, s.threads[t])
  {
    var th := s.threads[t];
    var value := s.blocks[th.block].slots[th.i % BLOCK_SIZE].value;
    GotoC(s.(blocks := SetSlot(s.blocks, th.block, th.i, None), log := s.log + [Delivery(t, th.i, value)], delivered := s.delivered + {th.i}),
          t, th.(at := if th.i + 1 >= Stop(th) then Count else Read, i := th.i + 1))
  }

  function CountStep(s: State, t: Tid): State
    requires t < |s.threads| && s.threads[t].at.Count? && ConsumerSafe(s, s.threads[t])
  {
    var th := s.threads[t];
    var done := s.blocks[th.block].done + (th.i - th.start);
    GotoC(s.(blocks := s.blocks[th.block := s.blocks[th.block].(done := done)], counted := s.counted + Range(th.start, th.i)),
          t, if done == BLOCK_SIZE then th.(at := Clear, start := th.i) else Onward(th.(start := th.i), |s.ix.headers[th.header].index|))
  }

  function ClearStep(s: State, t: Tid): State
    requires t < |s.threads| && s.threads[t].at.Clear? && ConsumerSafe(s, s.threads[t])
  {
    var th := s.threads[t];
    GotoC(s.(ix := StoreValue(s.ix, s.ix.headers[th.header].index[th.slot], None), cleared := s.cleared + {th.k},
             owner := s.owner[th.block := Leaving(t)]),
          t, th.(at := Release))
  }

  function ReleaseStep(s: State, t: Tid): State
    requires t < |s.threads| && s.threads[t].at.Release? && ConsumerSafe(s, s.threads[t])
  {
    var th := s.threads[t];
    GotoC(s.(free := s.free + {th.block}, owner := s.owner[th.block := Nobody]),
          t, Onward(th, |s.ix.headers[th.header].index|))
  }

  function ConsumerStep(s: State, t: Tid): State
    requires t < |s.threads| && ConsumerSafe(s, s.threads[t])
  {
    var at := s.threads[t].at;
    if Looking(at) then LookStep(s, t)
    else if at.Read? then ReadStep(s, t)
    else if at.Count? then CountStep(s, t)
    else if at.Clear? then ClearStep(s, t)
    else if at.Release? then ReleaseStep(s, t)
    else s
  }

  // ----- all steps

  /** What other producers and their consumers may do: anything to blocks that are not this
      queue's, and nothing to those that are. */
  predicate OthersMay(s: State, blocks: seq<Block>, free: set<Bid>) {
    && |blocks| == |s.blocks|
    && (forall b | 0 <= b < |blocks| :: |blocks[b].slots| == BLOCK_SIZE)
    && (forall b | 0 <= b < |blocks| && b < |s.owner| && s.owner[b] != Nobody :: blocks[b] == s.blocks[b])
    && (forall b <- free :: b < |s.owner| && s.owner[b] == Nobody)
  }

  predicate Enabled(s: State, a: Action) {
    match a
    case Enqueue(items) => s.producer.at == PIdle
    case Produce(_, got) => s.producer.at != PIdle && (got.Some? ==> got.value in s.free && got.value < |s.owner|)
    case Claim(t, count) => t < |s.threads| && s.threads[t].at == CIdle && count > 0 && s.headIndex + count <= s.tailIndex
    case Consume(t) => t < |s.threads| && s.threads[t].at != CIdle
    case Others(blocks, free) => OthersMay(s, blocks, free)
  }

  /** The step is not a crash. */
  predicate Safe(s: State, a: Action) {
    match a
    case Produce(_, _) => ProducerSafe(s)
    case Consume(t) => t < |s.threads| && ConsumerSafe(s, s.threads[t])
    case _ => true
  }

  function Step(s: State, a: Action): State
    requires Enabled(s, a) && Safe(s, a)
  {
    match a
    case Enqueue(items) => s.(producer := Producer(PNext, items, [], 0, 0, 0, 0, 0))
    case Produce(memory, got) => ProducerStep(s, memory, got)
    case Claim(t, count) =>
      GotoC(s.(headIndex := s.headIndex + count), t,
            Consumer(LoadHeader, s.headIndex, s.headIndex, s.headIndex + count, s.headIndex / BLOCK_SIZE, 0, 0, 0, 0, 0))
    case Consume(t) => ConsumerStep(s, t)
    case Others(blocks, free) => s.(blocks := blocks, free := free)
  }

  // ----- the invariant

  /** What the index stores for block number k: the block, until it is given back. */
  function Expected(home: seq<Bid>, chain: seq<Bid>, undone: nat, cleared: set<nat>, k: nat): Option<Bid> {
    if k < |home| then (if k in cleared then None else Some(home[k]))
    else if undone <= k - |home| < |chain| then Some(chain[k - |home|])
    else None
  }

  ghost predicate ValuesOk(ix: Index, home: seq<Bid>, chain: seq<Bid>, undone: nat, cleared: set<nat>) {
    forall k | ix.lo <= k < |ix.entryOf| :: ValueOf(ix, k) == Expected(home, chain, undone, cleared, k)
  }

  /** Every block in use is known to be, under one number only, and no block of the pool is. */
  ghost predicate OwnOk(owner: seq<Owner>, home: seq<Bid>, cleared: set<nat>, chain: seq<Bid>, freed: nat) {
    && (forall k | 0 <= k < |home| && k !in cleared :: home[k] < |owner| && owner[home[k]] == Number(k))
    && (forall x | freed <= x < |chain| :: chain[x] < |owner| && owner[chain[x]] == Number(|home| + x))
  }

  ghost predicate FreeOk(free: set<Bid>, owner: seq<Owner>) {
    forall b <- free :: b < |owner| && owner[b] == Nobody
  }

  function CountedIn(counted: set<nat>, k: nat): set<nat> {
    set x | x in counted && x / BLOCK_SIZE == k
  }

  predicate AllCounted(counted: set<nat>, k: nat) {
    forall x | k * BLOCK_SIZE <= x < (k + 1) * BLOCK_SIZE :: x in counted
  }

  /** A block's counter is the number of its indices whose dequeue is finished. */
  ghost predicate CountsOk(blocks: seq<Block>, home: seq<Bid>, cleared: set<nat>, counted: set<nat>, chain: seq<Bid>, freed: nat) {
    && (forall k | 0 <= k < |home| && k !in cleared :: home[k] < |blocks| && blocks[home[k]].done == |CountedIn(counted, k)|)
    && (forall k <- cleared :: k < |home| && AllCounted(counted, k))
    && (forall x | freed <= x < |chain| :: chain[x] < |blocks| && blocks[chain[x]].done == 0)
  }

  predicate Holds(blocks: seq<Block>, b: Bid, x: nat, value: Metric) {
    b < |blocks| && |blocks[b].slots| == BLOCK_SIZE && blocks[b].slots[x % BLOCK_SIZE] == Some(value)
  }

  /** Every element that has not been read is where its index says. */
  ghost predicate ContentsOk(enqueued: seq<Metric>, home: seq<Bid>, blocks: seq<Block>, delivered: set<nat>) {
    forall x | 0 <= x < |enqueued| && x !in delivered ::
      x / BLOCK_SIZE < |home| && Holds(blocks, home[x / BLOCK_SIZE], x, enqueued[x])
  }

  ghost predicate Shape(s: State) {
    && s.headIndex <= s.tailIndex == |s.enqueued|
    && |s.home| == Blocks(s.tailIndex)
    && |s.owner| == |s.blocks|
    && (forall b | 0 <= b < |s.blocks| :: |s.blocks[b].slots| == BLOCK_SIZE)
    && (s.tailIndex > 0 ==> s.tailBlock == s.home[|s.home| - 1])
    && s.counted <= s.delivered
    && (forall x <- s.delivered :: x < s.headIndex)
    && s.ix.lo <= |s.home|
    && (forall k: nat | k < s.ix.lo :: k in s.cleared)
  }

  predicate Active(th: Consumer) {
    th.at != CIdle
  }

  /** A consumer that has loaded a header: the blocks of its claim are all in it. */
  ghost predicate HeaderSeen(th: Consumer, ix: Index) {
    th.header < |ix.headers| && ix.headers[th.header].index != [] && (th.end - 1) / BLOCK_SIZE < ix.headers[th.header].top
  }

  ghost predicate LookupOk(th: Consumer, ix: Index) {
    && (th.at.LoadTail? ==> HeaderSeen(th, ix))
    && (th.at.LoadKey? ==>
          && HeaderSeen(th, ix)
          && (th.end - 1) / BLOCK_SIZE <= th.num < ix.headers[th.header].top
          && th.tail == Pos(th.num, ix.headers[th.header].origin, |ix.headers[th.header].index|))
    && (th.at.LoadValue? || th.at.Read? || th.at.Count? || th.at.Clear? || th.at.Release? ==>
          && HeaderSeen(th, ix)
          && th.slot == Pos(th.k, ix.headers[th.header].origin, |ix.headers[th.header].index|))
  }

  /** The consumer's place in its claim. */
  predicate PlaceOk(th: Consumer, headIndex: nat) {
    Active(th) ==>
      && th.start <= th.i <= th.end <= headIndex && th.k * BLOCK_SIZE <= th.start && th.i <= (th.k + 1) * BLOCK_SIZE
      && th.k <= (th.end - 1) / BLOCK_SIZE && 0 < th.end
      && (th.at.LoadHeader? || th.at.LoadTail? || th.at.LoadKey? || th.at.LoadValue? ==> th.start == th.i < Stop(th))
      && (th.at.Read? ==> th.i < Stop(th))
      && (th.at.Count? ==> th.start < th.i == Stop(th))
      && (th.at.Clear? || th.at.Release? ==> th.start == th.i == Stop(th))
  }

  ghost predicate ProgressOk(th: Consumer, counted: set<nat>, delivered: set<nat>) {
    Active(th) ==>
      && (forall x | th.start <= x < th.i :: x in delivered && x !in counted)
      && (forall x | th.i <= x < th.end :: x !in delivered)
  }

  ghost predicate BlockOk(th: Consumer, t: Tid, home: seq<Bid>, cleared: set<nat>, counted: set<nat>, owner: seq<Owner>) {
    && (th.at.Read? || th.at.Count? || th.at.Clear? ==> th.k < |home| && th.k !in cleared && th.block == home[th.k])
    && (th.at.Clear? ==> AllCounted(counted, th.k))
    && (th.at.Release? ==> th.block < |owner| && owner[th.block] == Leaving(t))
  }

  ghost predicate ThreadOk(s: State, t: Tid) {
    t < |s.threads| &&
    var th := s.threads[t];
    && PlaceOk(th, s.headIndex)
    && LookupOk(th, s.ix)
    && ProgressOk(th, s.counted, s.delivered)
    && BlockOk(th, t, s.home, s.cleared, s.counted, s.owner)
  }

  /** Two claims share no index, and no two consumers give back the same block. */
  predicate Apart(a: Consumer, b: Consumer) {
    Active(a) && Active(b) ==>
      && (a.start >= a.end || b.start >= b.end || a.end <= b.start || b.end <= a.start)
      && !(a.at.Clear? && b.at.Clear? && a.k == b.k)
  }

  predicate Working(th: Consumer, x: nat) {
    Active(th) && th.start <= x < th.end
  }

  ghost predicate ThreadsOk(s: State) {
    && (forall t | 0 <= t < |s.threads| :: ThreadOk(s, t))
    && (forall t, u | 0 <= t < |s.threads| && 0 <= u < |s.threads| && t != u :: Apart(s.threads[t], s.threads[u]))
  }

  /** Every claimed index is counted or in the hands of a consumer; every emptied block is given
      back or about to be. */
  ghost predicate CoverOk(s: State) {
    && (forall x: nat | x < s.headIndex && x !in s.counted :: exists t | 0 <= t < |s.threads| :: Working(s.threads[t], x))
    && (forall k: nat | k < |s.home| && k !in s.cleared && AllCounted(s.counted, k) ::
          exists t | 0 <= t < |s.threads| :: s.threads[t].at.Clear? && s.threads[t].k == k)
  }

  function DeliveredIn(log: seq<Delivery>): set<nat> {
    set d | 0 <= d < |log| :: log[d].index
  }

  /** Each delivery is the element of its index, and no index is delivered twice. */
  ghost predicate LogTrue(log: seq<Delivery>, enqueued: seq<Metric>) {
    && (forall d | 0 <= d < |log| :: log[d].index < |enqueued| && log[d].value == enqueued[log[d].index])
    && (forall c, d | 0 <= c < d < |log| :: log[c].index != log[d].index)
  }

  /** What one consumer is given comes in the order it was enqueued. */
  ghost predicate LogOrdered(log: seq<Delivery>) {
    forall c, d | 0 <= c < d < |log| && log[c].t == log[d].t :: log[c].index < log[d].index
  }

  ghost predicate LogBehind(log: seq<Delivery>, threads: seq<Consumer>) {
    forall d | 0 <= d < |log| && log[d].t < |threads| && Active(threads[log[d].t]) :: log[d].index < threads[log[d].t].i
  }

  ghost predicate LogOk(s: State) {
    s.delivered == DeliveredIn(s.log) && LogTrue(s.log, s.enqueued) && LogOrdered(s.log) && LogBehind(s.log, s.threads)
  }

  predicate Inserting(at: ProducerLabel) {
    at.PRoom? || at.PGrow? || at.PKey? || at.PTail? || at.PRequisition? || at.PReset? || at.PValue?
  }

  predicate Inserted(at: ProducerLabel) {
    at.PRequisition? || at.PReset? || at.PValue? || at.PRewind?
  }

  predicate Undoing(at: ProducerLabel) {
    at.PRewind? || at.PNull? || at.PUndo? || at.PUndoRewind? || at.PFree?
  }

  /** The producer's place, and how far the index tail has moved with it. */
  ghost predicate ProducerOk(s: State) {
    var p := s.producer;
    && p.undone <= |p.chain| && p.freed <= |p.chain| && p.written <= |p.items|
    && (!Undoing(p.at) || p.at.PRewind? || p.at.PNull? ==> p.undone == 0)
    && (!p.at.PFree? ==> p.freed == 0)
    && (p.at.PFree? ==> p.undone == |p.chain|)
    && (p.at.PIdle? ==> p.chain == [])
    && (!p.at.PWrite? ==> p.written == 0 || p.at.PIdle?)
    && (p.at.PNext? ==> |p.chain| <= NewBlocks(s.tailIndex, |p.items|))
    && (Inserting(p.at) ==> |p.chain| < NewBlocks(s.tailIndex, |p.items|) && NextNumber(s) * BLOCK_SIZE + BLOCK_SIZE < s.headIndex + HALF)
    && (p.at.PWrite? ==> |p.chain| == NewBlocks(s.tailIndex, |p.items|))
    && NextNumber(s) * BLOCK_SIZE < s.headIndex + HALF
  }

  ghost predicate ProducerIndexOk(s: State) {
    var p := s.producer;
    && ((Inserting(p.at) && !p.at.PRoom?) || p.at.PRewind? || p.at.PNull? || p.chain != [] || s.home != [] ==> s.ix.headers != [])
    && (p.at.PGrow? ==> Full(s.ix))
    && (p.at.PKey? ==> s.ix.headers != [] && Usable(s.ix) && HasRoom(s.ix) && p.entry == NextEntry(s.ix))
    && (p.at.PTail? ==> s.ix.count < |s.ix.entryOf| && p.entry == s.ix.entryOf[s.ix.count])
    && (Inserted(p.at) || p.at.PNull? ==> NextNumber(s) < |s.ix.entryOf| && p.entry == s.ix.entryOf[NextNumber(s)])
    && NextNumber(s) <= |s.ix.entryOf|
    && s.ix.count + p.undone == NextNumber(s) + (if Inserted(p.at) || p.at.PUndoRewind? then 1 else 0)
    && (p.at.PReset? || p.at.PValue? ==> p.block < |s.owner| && s.owner[p.block] == Held)
    && (p.at.PValue? ==> p.block < |s.blocks| && s.blocks[p.block].done == 0)
  }

  /** The block of index x, be it below the tail or among those acquired. */
  function HomeOf(s: State, x: nat): Bid {
    if x / BLOCK_SIZE < |s.home| then s.home[x / BLOCK_SIZE]
    else if x / BLOCK_SIZE - |s.home| < |s.producer.chain| then s.producer.chain[x / BLOCK_SIZE - |s.home|]
    else 0
  }

  ghost predicate WrittenOk(s: State) {
    var p := s.producer;
    p.at.PWrite? ==>
      p.written <= |p.items| &&
      forall y | 0 <= y < p.written :: Holds(s.blocks, HomeOf(s, s.tailIndex + y), s.tailIndex + y, p.items[y])
  }

  ghost predicate MemoryOk(s: State) {
    && Shape(s)
    && IndexOk(s.ix)
    && ValuesOk(s.ix, s.home, s.producer.chain, s.producer.undone, s.cleared)
    && OwnOk(s.owner, s.home, s.cleared, s.producer.chain, s.producer.freed)
    && FreeOk(s.free, s.owner)
    && CountsOk(s.blocks, s.home, s.cleared, s.counted, s.producer.chain, s.producer.freed)
    && ContentsOk(s.enqueued, s.home, s.blocks, s.delivered)
  }

  ghost predicate Inv(s: State) {
    && MemoryOk(s)
    && ProducerOk(s) && ProducerIndexOk(s) && WrittenOk(s)
    && ThreadsOk(s) && CoverOk(s) && LogOk(s)
  }

  const NO_INDEX: Index := Index([], [], 0, [], 0)

  /** A new producer: no elements and no blocks, and an index unless there was no memory for it. */
  ghost predicate Init(s: State) {
    && s.tailIndex == s.headIndex == 0
    && (s.ix == NO_INDEX || s.ix == Grow(NO_INDEX))
    && |s.owner| == |s.blocks| && (forall b | 0 <= b < |s.owner| :: s.owner[b] == Nobody && |s.blocks[b].slots| == BLOCK_SIZE)
    && (forall b <- s.free :: b < |s.blocks|)
    && s.producer == IDLE_PRODUCER && (forall t | 0 <= t < |s.threads| :: s.threads[t].at == CIdle)
    && s.enqueued == [] && s.log == [] && s.home == [] && s.cleared == s.counted == s.delivered == {}
  }

  // ----- consumers

  lemma CountedSize(counted: set<nat>, k: nat)
    ensures |CountedIn(counted, k)| <= BLOCK_SIZE
    ensures |CountedIn(counted, k)| == BLOCK_SIZE <==> AllCounted(counted, k)
  {
    var all := Range(k * BLOCK_SIZE, (k + 1) * BLOCK_SIZE);
    assert CountedIn(counted, k) <= all;
    SubsetSize(CountedIn(counted, k), all);
    if AllCounted(counted, k) {
      assert CountedIn(counted, k) == all;
    } else {
      var x :| k * BLOCK_SIZE <= x < (k + 1) * BLOCK_SIZE && x !in counted;
      SubsetSize(CountedIn(counted, k), all - {x});
    }
  }

  lemma CountedGrows(counted: set<nat>, lo: nat, hi: nat, k: nat)
    requires k * BLOCK_SIZE <= lo <= hi <= (k + 1) * BLOCK_SIZE
    requires forall x | lo <= x < hi :: x !in counted
    ensures |CountedIn(counted + Range(lo, hi), k)| == |CountedIn(counted, k)| + (hi - lo)
    ensures forall m: nat | m != k :: CountedIn(counted + Range(lo, hi), m) == CountedIn(counted, m)
  {
    var more := Range(lo, hi);
    forall x <- more ensures x / BLOCK_SIZE == k {}
    hide Range;
    assert CountedIn(counted + more, k) == CountedIn(counted, k) + more;
  }

  /** An uncounted index of a block keeps the block from being given back. */
  lemma StillHome(s: State, x: nat)
    requires MemoryOk(s) && x < s.tailIndex && x !in s.counted
    ensures x / BLOCK_SIZE < |s.home| && x / BLOCK_SIZE !in s.cleared && s.ix.lo <= x / BLOCK_SIZE
  {
  }

  /** The consumer's current block is still found through the index. */
  lemma BlockAtHand(s: State, t: Tid)
    requires Inv(s) && t < |s.threads|
    requires var th := s.threads[t]; Active(th) && !th.at.Clear? && !th.at.Release?
    ensures ThreadOk(s, t)
    ensures var th := s.threads[t]; th.k < |s.home| && th.k !in s.cleared && s.ix.lo <= th.k && th.start / BLOCK_SIZE == th.k
  {
    hide IndexOk, ValuesOk, OwnOk, FreeOk, ContentsOk, LogOk, CoverOk, WrittenOk, ProducerOk, ProducerIndexOk, LookupOk;
    var th := s.threads[t];
    assert ThreadOk(s, t);
    assert th.start < s.headIndex && th.start !in s.counted;
    StillHome(s, th.start);
  }

  /** The first lookup of a claim: whatever header it goes through, the slot it finds is that of
      the claim's first block, and the assertions of the lookup hold. */
  lemma FindsSlot(s: State, t: Tid)
    requires Inv(s) && t < |s.threads| && s.threads[t].at.LoadKey?
    ensures ConsumerSafe(s, s.threads[t]) && ThreadOk(LookStep(s, t), t)
  {
    hide ValuesOk, OwnOk, FreeOk, CountsOk, ContentsOk, LogOk, CoverOk, WrittenOk, ProducerOk, ProducerIndexOk;
    BlockAtHand(s, t);
    var th := s.threads[t];
    LookupFinds(s.ix, th.header, th.tail, th.num, th.k);
  }

  lemma LastBlockListed(s: State, t: Tid)
    requires Inv(s) && t < |s.threads|
    requires var th := s.threads[t]; th.at.LoadHeader? || th.at.LoadTail?
    ensures s.ix.headers != [] && HeaderOk(s.ix, Current(s.ix)) && CurrentOk(s.ix)
    ensures s.threads[t].k <= (s.threads[t].end - 1) / BLOCK_SIZE < s.ix.count <= Current(s.ix).top
  {
    BlockAtHand(s, t);
    assert s.home != [];
    assert |s.home| <= s.ix.count;
  }

  lemma ReadsHeader(s: State, t: Tid)
    requires Inv(s) && t < |s.threads| && s.threads[t].at.LoadHeader?
    ensures ConsumerSafe(s, s.threads[t]) && ThreadOk(LookStep(s, t), t)
  {
    hide ValuesOk, OwnOk, FreeOk, CountsOk, ContentsOk, LogOk, CoverOk, WrittenOk, ProducerOk, ProducerIndexOk;
    BlockAtHand(s, t);
    LastBlockListed(s, t);
  }

  lemma TailRead(s: State, t: Tid)
    requires t < |s.threads| && s.threads[t].at.LoadTail? && ThreadOk(s, t) && CurrentOk(s.ix) && s.ix.headers != []
    requires s.threads[t].header < |s.ix.headers| - 1 ==> Frozen(s.ix.headers[s.threads[t].header])
    requires (s.threads[t].end - 1) / BLOCK_SIZE < s.ix.count <= Current(s.ix).top
    ensures ThreadOk(LookStep(s, t), t)
  {
  }

  lemma ReadsTail(s: State, t: Tid)
    requires Inv(s) && t < |s.threads| && s.threads[t].at.LoadTail?
    ensures ConsumerSafe(s, s.threads[t]) && ThreadOk(LookStep(s, t), t)
  {
    assert ThreadOk(s, t);
    LastBlockListed(s, t);
    TailRead(s, t);
  }

  lemma FindsBlock(s: State, t: Tid)
    requires Inv(s) && t < |s.threads| && s.threads[t].at.LoadValue?
    ensures ConsumerSafe(s, s.threads[t]) && ThreadOk(LookStep(s, t), t)
  {
    hide OwnOk, FreeOk, CountsOk, ContentsOk, LogOk, CoverOk, WrittenOk, ProducerOk, ProducerIndexOk;
    BlockAtHand(s, t);
    var th := s.threads[t];
    var h := s.ix.headers[th.header];
    assert HeadersOk(s.ix) && HeaderOk(s.ix, h);
    assert h.index[th.slot] == s.ix.entryOf[th.k];
    assert ValueOf(s.ix, th.k) == Expected(s.home, s.producer.chain, s.producer.undone, s.cleared, th.k);
  }

  /** Every index that thread t worked on it still works on, or it is counted now, and every block
      it was about to give back it still is, or has given back. */
  ghost predicate Carries(s: State, s': State, t: Tid) {
    && t < |s.threads| == |s'.threads| && s'.threads == s.threads[t := s'.threads[t]]
    && s'.headIndex == s.headIndex && s.counted <= s'.counted && s'.home == s.home && s.cleared <= s'.cleared
    && (forall x: nat | Working(s.threads[t], x) :: Working(s'.threads[t], x) || x in s'.counted)
    && (s.threads[t].at.Clear? ==> s.threads[t].k in s'.cleared)
    && (forall k: nat | AllCounted(s'.counted, k) && k < |s.home| && k !in s'.cleared ::
          AllCounted(s.counted, k) || (s'.threads[t].at.Clear? && s'.threads[t].k == k))
  }

  lemma CarryingCovers(s: State, s': State, t: Tid)
    requires CoverOk(s) && Carries(s, s', t)
    ensures CoverOk(s')
  {
    forall x: nat | x < s'.headIndex && x !in s'.counted ensures exists u | 0 <= u < |s'.threads| :: Working(s'.threads[u], x) {
      var u :| 0 <= u < |s.threads| && Working(s.threads[u], x);
      assert Working(s'.threads[u], x);
    }
    forall k: nat | k < |s'.home| && k !in s'.cleared && AllCounted(s'.counted, k)
      ensures exists u | 0 <= u < |s'.threads| :: s'.threads[u].at.Clear? && s'.threads[u].k == k
    {
      if s'.threads[t].at.Clear? && s'.threads[t].k == k {
      } else {
        var u :| 0 <= u < |s.threads| && s.threads[u].at.Clear? && s.threads[u].k == k;
        assert s'.threads[u] == s.threads[u];
      }
    }
  }

  lemma LookThreadsOk(s: State, t: Tid, th: Consumer)
    requires ThreadsOk(s) && t < |s.threads| && ThreadOk(GotoC(s, t, th), t)
    requires var th0 := s.threads[t];
             Active(th0) && Active(th) && !th.at.Clear? && th.start == th0.start && th.i == th0.i && th.end == th0.end
    ensures ThreadsOk(GotoC(s, t, th))
  {
    var s' := GotoC(s, t, th);
    forall u | 0 <= u < |s'.threads| ensures ThreadOk(s', u) { assert u != t ==> ThreadOk(s, u); }
    forall u | 0 <= u < |s.threads| && u != t ensures Apart(th, s.threads[u]) && Apart(s.threads[u], th) {
      assert Apart(s.threads[t], s.threads[u]) && Apart(s.threads[u], s.threads[t]);
    }
  }

  lemma LookLogOk(s: State, t: Tid, th: Consumer)
    requires LogOk(s) && t < |s.threads| && Active(s.threads[t]) && th.i == s.threads[t].i
    ensures LogOk(GotoC(s, t, th))
  {
  }

  /** Loads move nothing but the thread's program counter. */
  lemma LookingKeepsInv(s: State, t: Tid, th: Consumer)
    requires Inv(s) && t < |s.threads| && ThreadOk(GotoC(s, t, th), t)
    requires var th0 := s.threads[t];
             Active(th0) && Active(th) && !th0.at.Clear? && !th.at.Clear?
             && th.start == th0.start && th.i == th0.i && th.end == th0.end
    ensures Inv(GotoC(s, t, th))
  {
    hide IndexOk, ValuesOk, OwnOk, FreeOk, CountsOk, ContentsOk, LogOk, ThreadsOk, CoverOk, WrittenOk, LookupOk, ProgressOk, BlockOk;
    assert MemoryOk(GotoC(s, t, th));
    ProducerStays(s, GotoC(s, t, th));
    WrittenStays(s, GotoC(s, t, th));
    LookThreadsOk(s, t, th);
    LookLogOk(s, t, th);
    CarryingCovers(s, GotoC(s, t, th), t);
  }

  lemma LookKeepsInv(s: State, t: Tid)
    requires Inv(s) && t < |s.threads| && Looking(s.threads[t].at)
    ensures ConsumerSafe(s, s.threads[t]) && Inv(LookStep(s, t))
  {
    var at := s.threads[t].at;
    if at.LoadHeader? { ReadsHeader(s, t); }
    else if at.LoadTail? { ReadsTail(s, t); }
    else if at.LoadKey? { FindsSlot(s, t); }
    else { FindsBlock(s, t); }
    LookingKeepsInv(s, t, LookStep(s, t).threads[t]);
  }

  /** Two indices whose elements are still wanted never share a slot. */
  lemma DifferentSlots(s: State, x: nat, y: nat)
    requires OwnOk(s.owner, s.home, s.cleared, s.producer.chain, s.producer.freed)
    requires s.producer.freed == 0 || (x / BLOCK_SIZE < |s.home| && y / BLOCK_SIZE < |s.home|)
    requires x != y && x / BLOCK_SIZE !in s.cleared && y / BLOCK_SIZE !in s.cleared
    requires x / BLOCK_SIZE < |s.home| + |s.producer.chain| && y / BLOCK_SIZE < |s.home| + |s.producer.chain|
    ensures HomeOf(s, x) != HomeOf(s, y) || x % BLOCK_SIZE != y % BLOCK_SIZE
  {
    if x / BLOCK_SIZE != y / BLOCK_SIZE {
      assert s.owner[HomeOf(s, x)] == Number(x / BLOCK_SIZE);
      assert s.owner[HomeOf(s, y)] == Number(y / BLOCK_SIZE);
    }
  }

  lemma ReadSafe(s: State, t: Tid)
    requires Inv(s) && t < |s.threads| && s.threads[t].at.Read?
    ensures var th := s.threads[t];
            && ConsumerSafe(s, th) && th.i < s.tailIndex && th.i / BLOCK_SIZE == th.k && th.i !in s.delivered
            && s.blocks[th.block].slots[th.i % BLOCK_SIZE] == Some(s.enqueued[th.i])
  {
    hide IndexOk, ValuesOk, OwnOk, FreeOk, CountsOk, LogOk, CoverOk, WrittenOk, ProducerOk, ProducerIndexOk, LookupOk;
    BlockAtHand(s, t);
    var th := s.threads[t];
    assert Holds(s.blocks, s.home[th.i / BLOCK_SIZE], th.i, s.enqueued[th.i]);
  }

  /** Emptying the slot of an element leaves every other element where it is. */
  lemma ReadContents(s: State, x: nat)
    requires MemoryOk(s) && x < s.tailIndex && x !in s.delivered
    ensures ContentsOk(s.enqueued, s.home, SetSlot(s.blocks, s.home[x / BLOCK_SIZE], x, None), s.delivered + {x})
  {
    var blocks' := SetSlot(s.blocks, s.home[x / BLOCK_SIZE], x, None);
    forall y | 0 <= y < |s.enqueued| && y !in s.delivered + {x}
      ensures y / BLOCK_SIZE < |s.home| && Holds(blocks', s.home[y / BLOCK_SIZE], y, s.enqueued[y])
    {
      assert Holds(s.blocks, s.home[y / BLOCK_SIZE], y, s.enqueued[y]);
      StillHome(s, x);
      StillHome(s, y);
      DifferentSlots(s, x, y);
    }
  }

  /** An index of the call in progress belongs to a block that is not given back. */
  lemma NewIndexHome(s: State, y: nat)
    requires MemoryOk(s) && y < |s.producer.items| && |s.producer.chain| == NewBlocks(s.tailIndex, |s.producer.items|)
    ensures var k := (s.tailIndex + y) / BLOCK_SIZE; k < |s.home| + |s.producer.chain| && k !in s.cleared
  {
    var k := (s.tailIndex + y) / BLOCK_SIZE;
    assert s.tailIndex + y !in s.counted && k * BLOCK_SIZE <= s.tailIndex + y < (k + 1) * BLOCK_SIZE;
  }

  lemma ReadWrittenAt(s: State, x: nat, y: nat)
    requires MemoryOk(s) && ProducerOk(s) && s.producer.at.PWrite? && x < s.tailIndex && x !in s.delivered && y < s.producer.written
    requires Holds(s.blocks, HomeOf(s, s.tailIndex + y), s.tailIndex + y, s.producer.items[y])
    ensures Holds(SetSlot(s.blocks, s.home[x / BLOCK_SIZE], x, None), HomeOf(s, s.tailIndex + y), s.tailIndex + y, s.producer.items[y])
  {
    hide IndexOk, ValuesOk, FreeOk, CountsOk, ContentsOk;
    StillHome(s, x);
    NewIndexHome(s, y);
    DifferentSlots(s, x, s.tailIndex + y);
  }

  lemma ReadWritten(s: State, s': State, x: nat)
    requires MemoryOk(s) && ProducerOk(s) && WrittenOk(s) && x < s.tailIndex && x !in s.delivered
    requires s'.blocks == SetSlot(s.blocks, s.home[x / BLOCK_SIZE], x, None)
    requires s'.producer == s.producer && s'.tailIndex == s.tailIndex && s'.home == s.home
    ensures WrittenOk(s')
  {
    hide IndexOk, ValuesOk, OwnOk, FreeOk, CountsOk, Holds, SetSlot;
    var p := s.producer;
    if p.at.PWrite? {
      forall y | 0 <= y < p.written ensures Holds(s'.blocks, HomeOf(s', s.tailIndex + y), s.tailIndex + y, p.items[y]) {
        assert Holds(s.blocks, HomeOf(s, s.tailIndex + y), s.tailIndex + y, p.items[y]);
        ReadWrittenAt(s, x, y);
      }
    }
  }

  /** A consumer's step touches only what its own claim gives it. */
  ghost predicate OwnEffects(s: State, s': State, t: Tid) {
    t < |s.threads| == |s'.threads| && s'.threads == s.threads[t := s'.threads[t]] &&
    var th := s.threads[t];
    && s'.headIndex == s.headIndex && s'.home == s.home && Extends(s.ix, s'.ix)
    && s.counted <= s'.counted && s.delivered <= s'.delivered
    && (forall x <- s'.counted :: x in s.counted || th.start <= x < th.i)
    && (forall x <- s'.delivered :: x in s.delivered || x == th.i < th.end)
    && (forall k <- s'.cleared :: k in s.cleared || (th.at.Clear? && k == th.k))
    && |s'.owner| == |s.owner|
    && (forall b | 0 <= b < |s.owner| && s'.owner[b] != s.owner[b] :: !s.owner[b].Leaving? || s.owner[b].t == t)
    && var th' := s'.threads[t];
    && Active(th) && (Active(th') ==> th.start <= th'.start && th'.end == th.end)
    && (th'.at.Clear? ==> th.at.Count? && th'.k == th.k)
  }

  lemma OtherThreadOk(s: State, s': State, t: Tid, u: Tid)
    requires ThreadsOk(s) && s.counted <= s.delivered && OwnEffects(s, s', t) && u < |s.threads| && u != t
    ensures ThreadOk(s', u) && Apart(s'.threads[t], s'.threads[u]) && Apart(s'.threads[u], s'.threads[t])
  {
    assert ThreadOk(s, t) && ThreadOk(s, u) && Apart(s.threads[t], s.threads[u]) && Apart(s.threads[u], s.threads[t]);
    var th, ut := s.threads[t], s.threads[u];
    assert th.at.Count? ==> th.start !in s.counted;
    assert ut.at.Read? || ut.at.Count? ==> ut.start !in s.counted;
  }

  lemma EffectsKeepThreads(s: State, s': State, t: Tid)
    requires ThreadsOk(s) && s.counted <= s.delivered && OwnEffects(s, s', t) && ThreadOk(s', t)
    ensures ThreadsOk(s')
  {
    forall u | 0 <= u < |s'.threads| && u != t
      ensures ThreadOk(s', u) && Apart(s'.threads[t], s'.threads[u]) && Apart(s'.threads[u], s'.threads[t])
    {
      OtherThreadOk(s, s', t, u);
    }
  }

  lemma ReadMemory(s: State, t: Tid)
    requires Inv(s) && t < |s.threads| && s.threads[t].at.Read?
    ensures ConsumerSafe(s, s.threads[t]) && MemoryOk(ReadStep(s, t))
  {
    hide IndexOk, ThreadsOk, CoverOk, LogOk, ProducerOk, ProducerIndexOk, WrittenOk, Holds;
    ReadSafe(s, t);
    BlockAtHand(s, t);
    ReadContents(s, s.threads[t].i);
  }

  lemma ReadThread(s: State, t: Tid)
    requires ThreadOk(s, t) && s.threads[t].at.Read? && ConsumerSafe(s, s.threads[t]) && s.counted <= s.delivered
    ensures ThreadOk(ReadStep(s, t), t)
  {
  }

  lemma ReadEffects(s: State, t: Tid)
    requires ThreadOk(s, t) && s.threads[t].at.Read? && ConsumerSafe(s, s.threads[t])
    ensures OwnEffects(s, ReadStep(s, t), t)
  {
  }

  lemma DeliveredGrows(log: seq<Delivery>, d: Delivery)
    ensures DeliveredIn(log + [d]) == DeliveredIn(log) + {d.index}
  {
    var log' := log + [d];
    assert forall c | 0 <= c < |log| :: log'[c] == log[c];
    assert log'[|log|].index == d.index;
  }

  lemma IndicesDelivered(log: seq<Delivery>)
    ensures forall d | 0 <= d < |log| :: log[d].index in DeliveredIn(log)
  {
  }

  lemma LogGrows(s: State, s': State, t: Tid)
    requires LogOk(s) && t < |s.threads| && Active(s.threads[t]) && s.threads[t].i < |s.enqueued| && s.threads[t].i !in s.delivered
    requires var x := s.threads[t].i;
             && s'.log == s.log + [Delivery(t, x, s.enqueued[x])] && s'.delivered == s.delivered + {x}
             && s'.enqueued == s.enqueued && |s'.threads| == |s.threads|
             && s'.threads == s.threads[t := s'.threads[t]] && s'.threads[t].i == x + 1
    ensures LogOk(s')
  {
    hide DeliveredIn;
    var x := s.threads[t].i;
    DeliveredGrows(s.log, Delivery(t, x, s.enqueued[x]));
    IndicesDelivered(s.log);
  }

  /** Consumers change nothing in the index but values, and these only to null. */
  ghost predicate OnlyNulls(ix: Index, ix': Index) {
    && ix'.headers == ix.headers && ix'.count == ix.count && ix'.entryOf == ix.entryOf && ix'.lo == ix.lo
    && |ix'.entries| == |ix.entries|
    && (forall e | 0 <= e < |ix.entries| ::
          ix'.entries[e].key == ix.entries[e].key && (ix'.entries[e].value == ix.entries[e].value || ix'.entries[e].value == None))
  }

  /** ... and nothing of the producer's. */
  ghost predicate ProducerUntouched(s: State, s': State) {
    && s'.producer == s.producer && s'.tailIndex == s.tailIndex && s'.home == s.home
    && s.headIndex <= s'.headIndex && OnlyNulls(s.ix, s'.ix) && |s'.owner| == |s.owner| && |s'.blocks| == |s.blocks|
    && (forall b | 0 <= b < |s.owner| && s.owner[b] == Held :: s'.owner[b] == Held)
    && (forall b | 0 <= b < |s.blocks| && b < |s.owner| && s.owner[b] == Held :: s'.blocks[b].done == s.blocks[b].done)
  }

  lemma ProducerStays(s: State, s': State)
    requires ProducerOk(s) && ProducerIndexOk(s) && ProducerUntouched(s, s')
    ensures ProducerOk(s') && ProducerIndexOk(s')
  {
  }

  lemma Assemble(s: State)
    requires MemoryOk(s) && ProducerOk(s) && ProducerIndexOk(s) && WrittenOk(s) && ThreadsOk(s) && CoverOk(s) && LogOk(s)
    ensures Inv(s)
  {
  }

  /** A consumer's step keeps the invariant if it keeps the memory in order and touches only its own. */
  lemma EffectsKeepInv(s: State, s': State, t: Tid)
    requires Inv(s) && MemoryOk(s') && WrittenOk(s') && LogOk(s')
    requires OwnEffects(s, s', t) && ThreadOk(s', t) && Carries(s, s', t) && ProducerUntouched(s, s')
    ensures Inv(s')
  {
    EffectsKeepThreads(s, s', t);
    CarryingCovers(s, s', t);
    ProducerStays(s, s');
    Assemble(s');
  }

  lemma ReadCarries(s: State, t: Tid)
    requires t < |s.threads| && s.threads[t].at.Read? && ConsumerSafe(s, s.threads[t])
    ensures Carries(s, ReadStep(s, t), t)
  {
  }

  lemma ReadLeavesProducer(s: State, t: Tid)
    requires MemoryOk(s) && t < |s.threads| && s.threads[t].at.Read? && ConsumerSafe(s, s.threads[t])
    ensures ProducerUntouched(s, ReadStep(s, t))
  {
  }

  lemma ReadKeepsInv(s: State, t: Tid)
    requires Inv(s) && t < |s.threads| && s.threads[t].at.Read?
    ensures ConsumerSafe(s, s.threads[t]) && Inv(ReadStep(s, t))
  {
    hide IndexOk, ValuesOk, OwnOk, FreeOk, CountsOk, ContentsOk, LogOk, CoverOk, ProducerOk, ProducerIndexOk, WrittenOk, LookupOk, ProgressOk;
    ReadSafe(s, t);
    BlockAtHand(s, t);
    ReadMemory(s, t);
    ReadThread(s, t);
    ReadEffects(s, t);
    ReadCarries(s, t);
    ReadLeavesProducer(s, t);
    LogGrows(s, ReadStep(s, t), t);
    ReadWritten(s, ReadStep(s, t), s.threads[t].i);
    EffectsKeepInv(s, ReadStep(s, t), t);
  }

  /** The counter of the block at hand, before and after the consumer's indices are added. */
  lemma CountSafe(s: State, t: Tid)
    requires Inv(s) && t < |s.threads| && s.threads[t].at.Count?
    ensures var th := s.threads[t];
            var counted' := s.counted + Range(th.start, th.i);
            && ConsumerSafe(s, th)
            && s.blocks[th.block].done + (th.i - th.start) == |CountedIn(counted', th.k)|
            && (s.blocks[th.block].done + (th.i - th.start) == BLOCK_SIZE <==> AllCounted(counted', th.k))
            && (forall m: nat | m != th.k ::
                  CountedIn(counted', m) == CountedIn(s.counted, m) && (AllCounted(counted', m) ==> AllCounted(s.counted, m)))
  {
    hide IndexOk, ValuesOk, OwnOk, FreeOk, ContentsOk, LogOk, CoverOk, WrittenOk, ProducerOk, ProducerIndexOk;
    BlockAtHand(s, t);
    var th := s.threads[t];
    var counted' := s.counted + Range(th.start, th.i);
    CountedGrows(s.counted, th.start, th.i, th.k);
    CountedSize(counted', th.k);
    forall m: nat | m != th.k && AllCounted(counted', m) ensures AllCounted(s.counted, m) {
      forall x | m * BLOCK_SIZE <= x < (m + 1) * BLOCK_SIZE ensures x in s.counted { assert x in counted'; }
    }
  }

  lemma SameSlots(s: State, s': State)
    requires ContentsOk(s.enqueued, s.home, s.blocks, s.delivered) && WrittenOk(s)
    requires s' == s.(blocks := s'.blocks) && |s'.blocks| == |s.blocks|
    requires forall b | 0 <= b < |s.blocks| :: s'.blocks[b].slots == s.blocks[b].slots
    ensures ContentsOk(s'.enqueued, s'.home, s'.blocks, s'.delivered) && WrittenOk(s')
  {
    forall x | 0 <= x < |s.enqueued| && x !in s.delivered
      ensures x / BLOCK_SIZE < |s.home| && Holds(s'.blocks, s.home[x / BLOCK_SIZE], x, s.enqueued[x])
    {
      assert Holds(s.blocks, s.home[x / BLOCK_SIZE], x, s.enqueued[x]);
    }
    if s.producer.at.PWrite? {
      forall y | 0 <= y < s.producer.written
        ensures Holds(s'.blocks, HomeOf(s', s.tailIndex + y), s.tailIndex + y, s.producer.items[y])
      {
        assert Holds(s.blocks, HomeOf(s, s.tailIndex + y), s.tailIndex + y, s.producer.items[y]);
      }
    }
  }

  /** Raising one block's counter by its newly counted indices keeps all counters right. */
  lemma CounterRaised(blocks: seq<Block>, home: seq<Bid>, cleared: set<nat>, counted: set<nat>, chain: seq<Bid>, freed: nat,
                      owner: seq<Owner>, k: nat, counted': set<nat>)
    requires CountsOk(blocks, home, cleared, counted, chain, freed) && OwnOk(owner, home, cleared, chain, freed)
    requires k < |home| && k !in cleared && counted <= counted'
    requires forall m: nat | m != k :: CountedIn(counted', m) == CountedIn(counted, m)
    ensures home[k] < |blocks|
    ensures CountsOk(blocks[home[k] := blocks[home[k]].(done := |CountedIn(counted', k)|)], home, cleared, counted', chain, freed)
  {
    var blocks' := blocks[home[k] := blocks[home[k]].(done := |CountedIn(counted', k)|)];
    forall m | 0 <= m < |home| && m !in cleared ensures home[m] < |blocks'| && blocks'[home[m]].done == |CountedIn(counted', m)| {
      assert owner[home[m]] == Number(m) && owner[home[k]] == Number(k);
    }
    forall x | freed <= x < |chain| ensures chain[x] < |blocks'| && blocks'[chain[x]].done == 0 {
      assert owner[chain[x]] == Number(|home| + x) && owner[home[k]] == Number(k);
    }
  }

  lemma CountSets(s: State, t: Tid)
    requires ThreadOk(s, t) && s.threads[t].at.Count? && s.counted <= s.delivered
    ensures s.counted + Range(s.threads[t].start, s.threads[t].i) <= s.delivered
  {
  }

  lemma AssembleMemory(s: State)
    requires Shape(s) && IndexOk(s.ix)
    requires ValuesOk(s.ix, s.home, s.producer.chain, s.producer.undone, s.cleared)
    requires OwnOk(s.owner, s.home, s.cleared, s.producer.chain, s.producer.freed) && FreeOk(s.free, s.owner)
    requires CountsOk(s.blocks, s.home, s.cleared, s.counted, s.producer.chain, s.producer.freed)
    requires ContentsOk(s.enqueued, s.home, s.blocks, s.delivered)
    ensures MemoryOk(s)
  {
  }

  lemma CountCounters(s: State, t: Tid)
    requires MemoryOk(s) && ThreadOk(s, t) && s.threads[t].at.Count? && ConsumerSafe(s, s.threads[t])
    requires var th := s.threads[t];
             var counted' := s.counted + Range(th.start, th.i);
             && s.blocks[th.block].done + (th.i - th.start) == |CountedIn(counted', th.k)|
             && (forall m: nat | m != th.k :: CountedIn(counted', m) == CountedIn(s.counted, m))
    ensures var s' := CountStep(s, t);
            CountsOk(s'.blocks, s'.home, s'.cleared, s'.counted, s'.producer.chain, s'.producer.freed)
  {
    CounterRaised(s.blocks, s.home, s.cleared, s.counted, s.producer.chain, s.producer.freed, s.owner,
                  s.threads[t].k, s.counted + Range(s.threads[t].start, s.threads[t].i));
  }

  lemma CountShape(s: State, t: Tid)
    requires Shape(s) && ThreadOk(s, t) && s.threads[t].at.Count? && ConsumerSafe(s, s.threads[t])
    ensures Shape(CountStep(s, t))
  {
    CountSets(s, t);
  }

  lemma CountContents(s: State, t: Tid)
    requires ContentsOk(s.enqueued, s.home, s.blocks, s.delivered) && WrittenOk(s)
    requires t < |s.threads| && s.threads[t].at.Count? && ConsumerSafe(s, s.threads[t])
    ensures var s' := CountStep(s, t); ContentsOk(s'.enqueued, s'.home, s'.blocks, s'.delivered) && WrittenOk(s')
  {
    hide Holds, Onward, WrittenOk, ContentsOk;
    var counted := s.(blocks := CountStep(s, t).blocks);
    SameSlots(s, counted);
    WrittenStays(counted, CountStep(s, t));
  }

  lemma CountMemory(s: State, t: Tid)
    requires Inv(s) && t < |s.threads| && s.threads[t].at.Count? && ConsumerSafe(s, s.threads[t])
    ensures MemoryOk(CountStep(s, t)) && WrittenOk(CountStep(s, t))
  {
    assert ThreadOk(s, t);
    CountSafe(s, t);
    CountCounters(s, t);
    CountShape(s, t);
    CountContents(s, t);
    AssembleMemory(CountStep(s, t));
  }

  /** On to the next block of the claim: the next slot is its slot. */
  lemma NextSlot(th: Consumer, ix: Index)
    requires th.start == th.i == Stop(th) && 0 < th.end && th.k * BLOCK_SIZE <= th.start && th.i <= th.end
    requires HeaderSeen(th, ix) && th.slot == Pos(th.k, ix.headers[th.header].origin, |ix.headers[th.header].index|)
    ensures var th' := Onward(th, |ix.headers[th.header].index|);
            && PlaceOk(th', th.end) && LookupOk(th', ix) && !th'.at.Clear? && !th'.at.Release? && !th'.at.Read? && !th'.at.Count?
            && (Active(th') ==> th'.start == th.start && th'.i == th.i && th'.end == th.end)
  {
    var h := ix.headers[th.header];
    ModAdd(th.k + h.origin, 1, |h.index|);
  }

  /** A consumer that is done with a block, whatever the sets of indices. */
  lemma OnwardOk(s: State, t: Tid, th: Consumer)
    requires t < |s.threads| && th.start == th.i == Stop(th) && 0 < th.end && th.k * BLOCK_SIZE <= th.start
    requires th.end <= s.headIndex && HeaderSeen(th, s.ix)
    requires th.slot == Pos(th.k, s.ix.headers[th.header].origin, |s.ix.headers[th.header].index|)
    requires s.threads[t] == Onward(th, |s.ix.headers[th.header].index|)
    requires forall x | th.i <= x < th.end :: x !in s.delivered
    ensures ThreadOk(s, t)
  {
    NextSlot(th, s.ix);
  }

  lemma CountThread(s: State, t: Tid)
    requires ThreadOk(s, t) && s.threads[t].at.Count? && ConsumerSafe(s, s.threads[t])
    requires s.blocks[s.threads[t].block].done + (s.threads[t].i - s.threads[t].start) == BLOCK_SIZE
             ==> AllCounted(s.counted + Range(s.threads[t].start, s.threads[t].i), s.threads[t].k)
    ensures ThreadOk(CountStep(s, t), t)
  {
    var s', th := CountStep(s, t), s.threads[t];
    if !s'.threads[t].at.Clear? { OnwardOk(s', t, th.(start := th.i)); }
  }

  lemma CountEffects(s: State, t: Tid)
    requires ThreadOk(s, t) && s.threads[t].at.Count? && ConsumerSafe(s, s.threads[t])
    ensures OwnEffects(s, CountStep(s, t), t)
  {
  }

  lemma CountCarries(s: State, t: Tid)
    requires Inv(s) && t < |s.threads| && s.threads[t].at.Count? && ConsumerSafe(s, s.threads[t])
    ensures Carries(s, CountStep(s, t), t)
  {
    hide IndexOk, ValuesOk, OwnOk, FreeOk, ContentsOk, CountsOk, LogOk,
      CoverOk, WrittenOk, ProducerOk, ProducerIndexOk, ThreadOk, Carries, CountedIn, AllCounted;
    assert ThreadOk(s, t);
    CountSafe(s, t);
    CountedCarries(s, t);
  }

  lemma CountedCarries(s: State, t: Tid)
    requires ThreadOk(s, t) && s.threads[t].at.Count? && ConsumerSafe(s, s.threads[t])
    requires var th := s.threads[t];
             var counted' := s.counted + Range(th.start, th.i);
             && (s.blocks[th.block].done + (th.i - th.start) == BLOCK_SIZE <==> AllCounted(counted', th.k))
             && (forall m: nat | m != th.k :: AllCounted(counted', m) ==> AllCounted(s.counted, m))
    ensures Carries(s, CountStep(s, t), t)
  {
    hide AllCounted, LookupOk, ProgressOk, BlockOk;
  }

  lemma CountLeavesProducer(s: State, t: Tid)
    requires MemoryOk(s) && ThreadOk(s, t) && s.threads[t].at.Count? && ConsumerSafe(s, s.threads[t])
    ensures ProducerUntouched(s, CountStep(s, t))
  {
    var th := s.threads[t];
    assert s.owner[s.home[th.k]] == Number(th.k);
  }

  lemma LogStays(s: State, s': State, t: Tid)
    requires LogOk(s) && t < |s.threads| == |s'.threads| && s'.threads == s.threads[t := s'.threads[t]]
    requires Active(s.threads[t]) && (Active(s'.threads[t]) ==> s'.threads[t].i == s.threads[t].i)
    requires s'.log == s.log && s'.delivered == s.delivered && s'.enqueued == s.enqueued
    ensures LogOk(s')
  {
  }

  lemma CountKeepsInv(s: State, t: Tid)
    requires Inv(s) && t < |s.threads| && s.threads[t].at.Count?
    ensures ConsumerSafe(s, s.threads[t]) && Inv(CountStep(s, t))
  {
    hide ValuesOk, FreeOk, CountsOk, ContentsOk, LogOk, CoverOk, ProducerOk, ProducerIndexOk, WrittenOk, LookupOk, ProgressOk;
    assert ThreadOk(s, t);
    CountSafe(s, t);
    CountMemory(s, t);
    CountThread(s, t);
    CountEffects(s, t);
    CountCarries(s, t);
    CountLeavesProducer(s, t);
    LogStays(s, CountStep(s, t), t);
    EffectsKeepInv(s, CountStep(s, t), t);
  }

  /** The entry a consumer nulls is that of the block it has emptied. */
  lemma ClearSafe(s: State, t: Tid)
    requires Inv(s) && t < |s.threads| && s.threads[t].at.Clear?
    ensures var th := s.threads[t];
            && ThreadOk(s, t) && ConsumerSafe(s, th) && th.k < |s.home| && th.k !in s.cleared && th.block == s.home[th.k]
            && s.ix.lo <= th.k < |s.ix.entryOf| && s.ix.headers[th.header].index[th.slot] == s.ix.entryOf[th.k]
  {
    assert ThreadOk(s, t);
    var th := s.threads[t];
    assert s.home != [] && |s.home| <= s.ix.count;
    assert HeaderOk(s.ix, s.ix.headers[th.header]);
    assert s.owner[s.home[th.k]] == Number(th.k);
  }

  /** An entry's value changes, for block number k. */
  lemma ValueChanges(ix: Index, k: nat, value: Option<Bid>)
    requires IndexOk(ix) && ix.lo <= k < |ix.entryOf|
    ensures ix.entryOf[k] < |ix.entries|
    ensures var ix' := StoreValue(ix, ix.entryOf[k], value);
            && IndexOk(ix') && Extends(ix, ix') && (value == None ==> OnlyNulls(ix, ix'))
            && (forall m | ix.lo <= m < |ix.entryOf| :: ValueOf(ix', m) == if m == k then value else ValueOf(ix, m))
  {
    StoreValueKeeps(ix, k, value);
  }

  lemma ClearMemory(s: State, t: Tid)
    requires Inv(s) && t < |s.threads| && s.threads[t].at.Clear? && ConsumerSafe(s, s.threads[t])
    ensures MemoryOk(ClearStep(s, t))
  {
    ClearSafe(s, t);
    var s', th := ClearStep(s, t), s.threads[t];
    ValueChanges(s.ix, th.k, None);
    ClearValues(s, th.k);
    ClearOwners(s, t, th.k);
    ClearCounts(s, th.k);
    AssembleMemory(s');
  }

  lemma ClearValues(s: State, k: nat)
    requires IndexOk(s.ix) && ValuesOk(s.ix, s.home, s.producer.chain, s.producer.undone, s.cleared)
    requires s.ix.lo <= k < |s.ix.entryOf| && k < |s.home| && s.ix.entryOf[k] < |s.ix.entries|
    ensures ValuesOk(StoreValue(s.ix, s.ix.entryOf[k], None), s.home, s.producer.chain, s.producer.undone, s.cleared + {k})
  {
    ValueChanges(s.ix, k, None);
  }

  lemma ClearOwners(s: State, t: Tid, k: nat)
    requires OwnOk(s.owner, s.home, s.cleared, s.producer.chain, s.producer.freed) && FreeOk(s.free, s.owner)
    requires k < |s.home| && k !in s.cleared
    ensures s.home[k] < |s.owner|
    ensures OwnOk(s.owner[s.home[k] := Leaving(t)], s.home, s.cleared + {k}, s.producer.chain, s.producer.freed)
    ensures FreeOk(s.free, s.owner[s.home[k] := Leaving(t)])
  {
    assert s.owner[s.home[k]] == Number(k);
    var owner' := s.owner[s.home[k] := Leaving(t)];
    forall m | 0 <= m < |s.home| && m !in s.cleared + {k} ensures s.home[m] < |owner'| && owner'[s.home[m]] == Number(m) {
      assert s.owner[s.home[m]] == Number(m);
    }
    forall x | s.producer.freed <= x < |s.producer.chain|
      ensures s.producer.chain[x] < |owner'| && owner'[s.producer.chain[x]] == Number(|s.home| + x)
    {
      assert s.owner[s.producer.chain[x]] == Number(|s.home| + x);
    }
  }

  lemma ClearCounts(s: State, k: nat)
    requires CountsOk(s.blocks, s.home, s.cleared, s.counted, s.producer.chain, s.producer.freed)
    requires k < |s.home| && AllCounted(s.counted, k)
    ensures CountsOk(s.blocks, s.home, s.cleared + {k}, s.counted, s.producer.chain, s.producer.freed)
  {
  }

  lemma ClearThread(s: State, t: Tid)
    requires ThreadOk(s, t) && s.threads[t].at.Clear? && ConsumerSafe(s, s.threads[t])
    ensures ThreadOk(ClearStep(s, t), t)
  {
  }

  lemma ClearEffects(s: State, t: Tid)
    requires ThreadOk(s, t) && s.threads[t].at.Clear? && ConsumerSafe(s, s.threads[t])
    requires s.threads[t].block < |s.owner| && s.owner[s.threads[t].block] == Number(s.threads[t].k)
    ensures OwnEffects(s, ClearStep(s, t), t)
  {
  }

  lemma ClearCarries(s: State, t: Tid)
    requires t < |s.threads| && s.threads[t].at.Clear? && ConsumerSafe(s, s.threads[t])
    ensures Carries(s, ClearStep(s, t), t)
  {
  }

  lemma WrittenStays(s: State, s': State)
    requires WrittenOk(s) && s'.blocks == s.blocks && s'.home == s.home && s'.producer == s.producer && s'.tailIndex == s.tailIndex
    ensures WrittenOk(s')
  {
    assert forall x :: HomeOf(s', x) == HomeOf(s, x);
  }

  lemma ClearLeavesProducer(s: State, t: Tid)
    requires IndexOk(s.ix) && t < |s.threads| && s.threads[t].at.Clear? && ConsumerSafe(s, s.threads[t])
    requires var th := s.threads[t];
             && s.ix.lo <= th.k < |s.ix.entryOf| && s.ix.headers[th.header].index[th.slot] == s.ix.entryOf[th.k]
             && s.owner[th.block] == Number(th.k)
    ensures ProducerUntouched(s, ClearStep(s, t))
  {
    ValueChanges(s.ix, s.threads[t].k, None);
  }

  lemma ClearKeepsInv(s: State, t: Tid)
    requires Inv(s) && t < |s.threads| && s.threads[t].at.Clear?
    ensures ConsumerSafe(s, s.threads[t]) && Inv(ClearStep(s, t))
  {
    hide ValuesOk, FreeOk, CountsOk, ContentsOk, LogOk, CoverOk, ProducerOk, ProducerIndexOk, WrittenOk, LookupOk, ProgressOk;
    ClearSafe(s, t);
    ClearMemory(s, t);
    ClearThread(s, t);
    assert s.owner[s.home[s.threads[t].k]] == Number(s.threads[t].k);
    ClearEffects(s, t);
    ClearCarries(s, t);
    ClearLeavesProducer(s, t);
    LogStays(s, ClearStep(s, t), t);
    WrittenStays(s, ClearStep(s, t));
    EffectsKeepInv(s, ClearStep(s, t), t);
  }

  lemma ReleaseMemory(s: State, t: Tid)
    requires MemoryOk(s) && ThreadOk(s, t) && s.threads[t].at.Release? && ConsumerSafe(s, s.threads[t])
    ensures MemoryOk(ReleaseStep(s, t))
  {
    var s' := ReleaseStep(s, t);
    ReleaseOwners(s, s.threads[t].block, t);
    AssembleMemory(s');
  }

  lemma ReleaseOwners(s: State, b: Bid, t: Tid)
    requires OwnOk(s.owner, s.home, s.cleared, s.producer.chain, s.producer.freed) && FreeOk(s.free, s.owner)
    requires b < |s.owner| && s.owner[b] == Leaving(t)
    ensures OwnOk(s.owner[b := Nobody], s.home, s.cleared, s.producer.chain, s.producer.freed)
    ensures FreeOk(s.free + {b}, s.owner[b := Nobody])
  {
    var owner' := s.owner[b := Nobody];
    forall m | 0 <= m < |s.home| && m !in s.cleared ensures s.home[m] < |owner'| && owner'[s.home[m]] == Number(m) {
      assert s.owner[s.home[m]] == Number(m);
    }
    forall x | s.producer.freed <= x < |s.producer.chain|
      ensures s.producer.chain[x] < |owner'| && owner'[s.producer.chain[x]] == Number(|s.home| + x)
    {
      assert s.owner[s.producer.chain[x]] == Number(|s.home| + x);
    }
  }

  lemma ReleaseThread(s: State, t: Tid)
    requires ThreadOk(s, t) && s.threads[t].at.Release? && ConsumerSafe(s, s.threads[t])
    ensures ThreadOk(ReleaseStep(s, t), t)
  {
    OnwardOk(ReleaseStep(s, t), t, s.threads[t]);
  }

  lemma ReleaseEffects(s: State, t: Tid)
    requires ThreadOk(s, t) && s.threads[t].at.Release? && ConsumerSafe(s, s.threads[t])
    ensures OwnEffects(s, ReleaseStep(s, t), t) && Carries(s, ReleaseStep(s, t), t) && ProducerUntouched(s, ReleaseStep(s, t))
  {
  }

  lemma ReleaseKeepsInv(s: State, t: Tid)
    requires Inv(s) && t < |s.threads| && s.threads[t].at.Release?
    ensures ConsumerSafe(s, s.threads[t]) && Inv(ReleaseStep(s, t))
  {
    hide ValuesOk, FreeOk, CountsOk, ContentsOk, LogOk, CoverOk, ProducerOk, ProducerIndexOk, WrittenOk, ProgressOk;
    assert ThreadOk(s, t);
    assert HeaderOk(s.ix, s.ix.headers[s.threads[t].header]);
    ReleaseMemory(s, t);
    ReleaseThread(s, t);
    ReleaseEffects(s, t);
    LogStays(s, ReleaseStep(s, t), t);
    WrittenStays(s, ReleaseStep(s, t));
    EffectsKeepInv(s, ReleaseStep(s, t), t);
  }

  lemma ConsumeKeepsInv(s: State, t: Tid)
    requires Inv(s) && t < |s.threads| && Active(s.threads[t])
    ensures ConsumerSafe(s, s.threads[t]) && Inv(ConsumerStep(s, t))
  {
    hide MemoryOk, ProducerIndexOk, WrittenOk, ThreadsOk, CoverOk, LogOk, ProducerSafe, ConsumerSafe;
    var at := s.threads[t].at;
    if at.Read? { ReadKeepsInv(s, t); }
    else if at.Count? { CountKeepsInv(s, t); }
    else if at.Clear? { ClearKeepsInv(s, t); }
    else if at.Release? { ReleaseKeepsInv(s, t); }
    else { LookKeepsInv(s, t); }
  }

  lemma ClaimAround(s: State, t: Tid, count: nat)
    requires Inv(s) && Enabled(s, Claim(t, count))
    ensures var s' := Step(s, Claim(t, count)); MemoryOk(s') && LogOk(s') && ProducerUntouched(s, s')
  {
    var s' := Step(s, Claim(t, count));
    IndicesDelivered(s.log);
    AssembleMemory(s');
  }

  /** A claim below the tail: its indices have been neither read nor counted. */
  lemma ClaimKeepsInv(s: State, t: Tid, count: nat)
    requires Inv(s) && Enabled(s, Claim(t, count))
    ensures Inv(Step(s, Claim(t, count)))
  {
    hide IndexOk, ValuesOk, OwnOk, FreeOk, CountsOk, ContentsOk, LogOk, ThreadsOk, CoverOk, WrittenOk;
    var s' := Step(s, Claim(t, count));
    ClaimAround(s, t, count);
    ClaimThreads(s, t, count);
    ClaimCovers(s, t, count);
    ProducerStays(s, s');
    WrittenStays(s, s');
    Assemble(s');
  }

  lemma ClaimThreads(s: State, t: Tid, count: nat)
    requires Inv(s) && Enabled(s, Claim(t, count))
    ensures ThreadsOk(Step(s, Claim(t, count)))
  {
    hide IndexOk, ValuesOk, OwnOk, FreeOk, CountsOk, ContentsOk, LogOk, CoverOk, WrittenOk, ProducerOk, ProducerIndexOk;
    var s' := Step(s, Claim(t, count));
    forall u | 0 <= u < |s'.threads|
      ensures ThreadOk(s', u) && (u != t ==> Apart(s'.threads[t], s'.threads[u]) && Apart(s'.threads[u], s'.threads[t]))
    {
      assert ThreadOk(s, u);
    }
  }

  lemma ClaimCovers(s: State, t: Tid, count: nat)
    requires CoverOk(s) && Enabled(s, Claim(t, count))
    ensures CoverOk(Step(s, Claim(t, count)))
  {
    var s' := Step(s, Claim(t, count));
    forall x: nat | x < s'.headIndex && x !in s'.counted ensures exists u | 0 <= u < |s'.threads| :: Working(s'.threads[u], x) {
      if x < s.headIndex {
        var u :| 0 <= u < |s.threads| && Working(s.threads[u], x);
        assert Working(s'.threads[u], x);
      } else {
        assert Working(s'.threads[t], x);
      }
    }
    forall k: nat | k < |s'.home| && k !in s'.cleared && AllCounted(s'.counted, k)
      ensures exists u | 0 <= u < |s'.threads| :: s'.threads[u].at.Clear? && s'.threads[u].k == k
    {
      var u :| 0 <= u < |s.threads| && s.threads[u].at.Clear? && s.threads[u].k == k;
      assert s'.threads[u] == s.threads[u];
    }
  }

  lemma OthersKeepContents(s: State, blocks: seq<Block>)
    requires MemoryOk(s) && OthersMay(s, blocks, {})
    ensures ContentsOk(s.enqueued, s.home, blocks, s.delivered)
  {
    forall x | 0 <= x < |s.enqueued| && x !in s.delivered
      ensures x / BLOCK_SIZE < |s.home| && Holds(blocks, s.home[x / BLOCK_SIZE], x, s.enqueued[x])
    {
      StillHome(s, x);
      assert Holds(s.blocks, s.home[x / BLOCK_SIZE], x, s.enqueued[x]);
    }
  }

  lemma OthersKeepWritten(s: State, blocks: seq<Block>, free: set<Bid>)
    requires MemoryOk(s) && ProducerOk(s) && WrittenOk(s) && OthersMay(s, blocks, free)
    ensures WrittenOk(s.(blocks := blocks, free := free))
  {
    hide IndexOk, ValuesOk, OwnOk, CountsOk, ContentsOk, FreeOk, Shape;
    var p, s' := s.producer, s.(blocks := blocks, free := free);
    if p.at.PWrite? {
      forall y | 0 <= y < p.written ensures Holds(blocks, HomeOf(s', s.tailIndex + y), s.tailIndex + y, p.items[y]) {
        assert Holds(s.blocks, HomeOf(s, s.tailIndex + y), s.tailIndex + y, p.items[y]);
        NewIndexOwned(s, y);
      }
    }
  }

  lemma NewIndexOwned(s: State, y: nat)
    requires MemoryOk(s) && ProducerOk(s) && s.producer.at.PWrite? && y < |s.producer.items|
    ensures var b := HomeOf(s, s.tailIndex + y); b < |s.owner| && s.owner[b] != Nobody
  {
    hide IndexOk, ValuesOk, CountsOk, ContentsOk, FreeOk;
    NewIndexHome(s, y);
    var k := (s.tailIndex + y) / BLOCK_SIZE;
    if k >= |s.home| { assert s.owner[s.producer.chain[k - |s.home|]] == Number(|s.home| + (k - |s.home|)); }
  }

  lemma OthersKeepMemory(s: State, blocks: seq<Block>, free: set<Bid>)
    requires MemoryOk(s) && OthersMay(s, blocks, free)
    ensures MemoryOk(s.(blocks := blocks, free := free))
  {
    OthersKeepContents(s, blocks);
    assert CountsOk(blocks, s.home, s.cleared, s.counted, s.producer.chain, s.producer.freed) by {
      assert forall k | 0 <= k < |s.home| && k !in s.cleared :: s.owner[s.home[k]] == Number(k);
      assert forall x | s.producer.freed <= x < |s.producer.chain| :: s.owner[s.producer.chain[x]] == Number(|s.home| + x);
    }
    AssembleMemory(s.(blocks := blocks, free := free));
  }

  /** Other producers and consumers touch nothing that matters here. */
  lemma OthersKeepInv(s: State, blocks: seq<Block>, free: set<Bid>)
    requires Inv(s) && OthersMay(s, blocks, free)
    ensures Inv(s.(blocks := blocks, free := free))
  {
    var s' := s.(blocks := blocks, free := free);
    OthersKeepMemory(s, blocks, free);
    OthersKeepWritten(s, blocks, free);
    assert ProducerUntouched(s, s');
    ProducerStays(s, s');
    assert ThreadsOk(s') by { forall u | 0 <= u < |s'.threads| ensures ThreadOk(s', u) { assert ThreadOk(s, u); } }
    assert CoverOk(s');
    Assemble(s');
  }

  // ----- the producer

  /** What a producer's step leaves to the consumers. */
  ghost predicate ConsumersUntouched(s: State, s': State) {
    && s'.threads == s.threads && s'.headIndex == s.headIndex && s'.log == s.log
    && s'.counted == s.counted && s'.delivered == s.delivered && s'.cleared == s.cleared
    && Extends(s.ix, s'.ix) && s.home <= s'.home && s.enqueued <= s'.enqueued
    && (forall k: nat | |s.home| <= k < |s'.home| :: !AllCounted(s.counted, k))
    && |s'.owner| == |s.owner|
    && (forall b | 0 <= b < |s.owner| && s.owner[b].Leaving? :: s'.owner[b] == s.owner[b])
  }

  lemma ConsumersStay(s: State, s': State)
    requires ThreadsOk(s) && CoverOk(s) && LogOk(s) && ConsumersUntouched(s, s')
    ensures ThreadsOk(s') && CoverOk(s') && LogOk(s')
  {
    forall u | 0 <= u < |s'.threads| ensures ThreadOk(s', u) { assert ThreadOk(s, u); }
  }

  lemma PlanSafe(s: State)
    requires Inv(s) && Planning(s.producer.at)
    ensures ProducerSafe(s)
    ensures s.ix.headers != [] ==> Usable(s.ix)
    ensures s.ix.count == NextNumber(s) < |s.ix.entryOf| ==> ValueOf(s.ix, s.ix.count) == None
  {
    assert s.ix.headers != [] ==> HeaderOk(s.ix, Current(s.ix));
    if s.producer.at.PGrow? { GrowSummary(s.ix); }
    if s.ix.count == NextNumber(s) < |s.ix.entryOf| {
      assert ValueOf(s.ix, s.ix.count) == Expected(s.home, s.producer.chain, s.producer.undone, s.cleared, s.ix.count);
    }
  }

  lemma PlanProducer(s: State, memory: bool)
    requires ProducerOk(s) && ProducerIndexOk(s) && s.producer.at.PNext? && ProducerSafe(s)
    ensures ProducerOk(PlanStep(s, memory)) && ProducerIndexOk(PlanStep(s, memory))
  {
  }

  lemma RoomProducer(s: State, memory: bool)
    requires ProducerOk(s) && ProducerIndexOk(s) && s.producer.at.PRoom? && ProducerSafe(s)
    requires s.ix.headers != [] && Usable(s.ix) && !HasRoom(s.ix) ==> Full(s.ix)
    ensures ProducerOk(PlanStep(s, memory)) && ProducerIndexOk(PlanStep(s, memory))
  {
    hide NextEntry, HasRoom, Full;
  }

  lemma RoomOrFull(s: State)
    requires Inv(s) && s.producer.at.PRoom?
    ensures s.ix.headers != [] && Usable(s.ix) && !HasRoom(s.ix) ==> Full(s.ix)
  {
    hide ValuesOk, OwnOk, FreeOk, CountsOk, ContentsOk, LogOk, ThreadsOk, CoverOk, WrittenOk, IndexOk;
    PlanSafe(s);
    if s.ix.headers != [] && Usable(s.ix) && !HasRoom(s.ix) { NoRoomMeansFull(s.ix); }
  }

  lemma GrowProducer(s: State, memory: bool)
    requires Inv(s) && s.producer.at.PGrow? && ProducerSafe(s)
    ensures ProducerOk(PlanStep(s, memory)) && ProducerIndexOk(PlanStep(s, memory))
  {
    hide ValuesOk, OwnOk, FreeOk, CountsOk, ContentsOk, LogOk, ThreadsOk, CoverOk, WrittenOk, IndexOk;
    GrowSummary(s.ix);
  }

  /** A step of the producer that changes at most the index, none of the values in it. */
  lemma IndexMemory(s: State, s': State)
    requires MemoryOk(s) && IndexOk(s'.ix) && s'.ix.lo <= |s.home| && (forall k: nat | k < s'.ix.lo :: k in s.cleared)
    requires s' == s.(ix := s'.ix, producer := s'.producer)
    requires s'.producer.chain == s.producer.chain && s'.producer.freed == s.producer.freed
    requires ValuesOk(s'.ix, s.home, s'.producer.chain, s'.producer.undone, s.cleared)
    ensures MemoryOk(s')
  {
  }

  lemma GrownValues(s: State)
    requires MemoryOk(s) && Full(s.ix)
    ensures Usable(s.ix) && IndexOk(Grow(s.ix)) && Grow(s.ix).lo == s.ix.lo
    ensures ValuesOk(Grow(s.ix), s.home, s.producer.chain, s.producer.undone, s.cleared)
  {
    GrowSummary(s.ix);
  }

  /** Planning changes at most the index, and that by growing it. */
  lemma PlanChanges(s: State, memory: bool)
    requires ProducerSafe(s) && Planning(s.producer.at)
    ensures var s' := PlanStep(s, memory);
            && s' == s.(ix := s'.ix, producer := s'.producer)
            && (s'.ix == s.ix || (s.producer.at.PGrow? && s'.ix == Grow(s.ix)))
            && s'.producer == s.producer.(at := s'.producer.at, entry := s'.producer.entry) && (s'.producer.at.PWrite? ==> s.producer.at.PNext?)
  {
    hide Grow;
  }

  lemma PlanMemory(s: State, memory: bool)
    requires Inv(s) && Planning(s.producer.at) && ProducerSafe(s)
    ensures MemoryOk(PlanStep(s, memory)) && WrittenOk(PlanStep(s, memory))
  {
    hide PlanStep, Grow, ProducerSafe;
    PlanChanges(s, memory);
    if s.producer.at.PGrow? { GrownValues(s); }
    IndexMemory(s, PlanStep(s, memory));
  }

  lemma PlanConsumers(s: State, memory: bool)
    requires Inv(s) && Planning(s.producer.at) && ProducerSafe(s)
    ensures ConsumersUntouched(s, PlanStep(s, memory))
  {
    hide PlanStep, Grow, ProducerSafe;
    PlanChanges(s, memory);
    if s.producer.at.PGrow? { GrowSummary(s.ix); }
  }

  lemma PlanKeepsInv(s: State, memory: bool)
    requires Inv(s) && Planning(s.producer.at)
    ensures ProducerSafe(s) && Inv(PlanStep(s, memory))
  {
    hide IndexOk, ValuesOk, OwnOk, FreeOk, CountsOk, ContentsOk, LogOk, ThreadsOk, CoverOk, WrittenOk, ProducerSafe, PlanStep, Full, HasRoom, Usable;
    PlanSafe(s);
    if s.producer.at.PNext? { PlanProducer(s, memory); }
    else if s.producer.at.PRoom? { RoomOrFull(s); RoomProducer(s, memory); }
    else { GrowProducer(s, memory); }
    PlanMemory(s, memory);
    PlanConsumers(s, memory);
    ConsumersStay(s, PlanStep(s, memory));
    Assemble(PlanStep(s, memory));
  }

  /** Storing a key gives an entry to the next block number; the oldest one may lose its entry, but
      only when its block has been given back. */
  lemma KeyStored(s: State)
    requires Inv(s) && s.producer.at.PKey?
    ensures ProducerSafe(s)
    ensures var ix' := StoreKey(s.ix);
            && IndexOk(ix') && Extends(s.ix, ix') && ix'.count == s.ix.count == NextNumber(s) < |ix'.entryOf| && |s.ix.entryOf| <= |ix'.entryOf|
            && s.producer.entry == ix'.entryOf[ix'.count]
            && ix'.lo <= |s.home| && (forall k: nat | k < ix'.lo :: k in s.cleared)
            && ValuesOk(ix', s.home, s.producer.chain, s.producer.undone, s.cleared)
  {
    hide OwnOk, FreeOk, ContentsOk, LogOk, ThreadsOk, CoverOk, WrittenOk, IndexOk, Extends;
    InsertKeeps(s.ix);
    IndexBounds(s.ix);
    var ix' := StoreKey(s.ix);
    assert ValueOf(s.ix, s.ix.lo) == Expected(s.home, s.producer.chain, 0, s.cleared, s.ix.lo) || |s.ix.entryOf| <= s.ix.lo;
    forall k | ix'.lo <= k < |ix'.entryOf| ensures ValueOf(ix', k) == Expected(s.home, s.producer.chain, 0, s.cleared, k) {
      if k < |s.ix.entryOf| { assert ValueOf(s.ix, k) == Expected(s.home, s.producer.chain, 0, s.cleared, k); }
    }
  }

  lemma IndexBounds(ix: Index)
    requires IndexOk(ix)
    ensures ix.lo <= ix.count <= |ix.entryOf|
  {
  }

  lemma TailStored(s: State)
    requires Inv(s) && s.producer.at.PTail?
    ensures ProducerSafe(s)
    ensures var ix' := StoreTail(s.ix);
            && IndexOk(ix') && Extends(s.ix, ix') && ix'.lo == s.ix.lo && ix'.entryOf == s.ix.entryOf && ix'.count == s.ix.count + 1
            && ix'.headers != [] && ValuesOk(ix', s.home, s.producer.chain, s.producer.undone, s.cleared)
  {
    TailKeeps(s.ix);
    var ix' := StoreTail(s.ix);
    assert forall k | s.ix.lo <= k < |s.ix.entryOf| :: ValueOf(ix', k) == ValueOf(s.ix, k);
  }

  lemma InsertKeepsInv(s: State)
    requires Inv(s) && (s.producer.at.PKey? || s.producer.at.PTail?)
    ensures ProducerSafe(s) && Inv(InsertStep(s))
  {
    hide IndexOk, ValuesOk, OwnOk, FreeOk, CountsOk, ContentsOk, LogOk, ThreadsOk, CoverOk, WrittenOk;
    if s.producer.at.PKey? { KeyStored(s); } else { TailStored(s); }
    var s' := InsertStep(s);
    IndexMemory(s, s');
    InsertProducer(s, s');
    assert ConsumersUntouched(s, s');
    ConsumersStay(s, s');
    Assemble(s');
  }

  lemma InsertProducer(s: State, s': State)
    requires ProducerOk(s) && ProducerIndexOk(s) && (s.producer.at.PKey? || s.producer.at.PTail?)
    requires s' == s.(ix := s'.ix, producer := s'.producer)
    requires s'.producer == s.producer.(at := if s.producer.at.PKey? then PTail else PRequisition)
    requires s'.ix.headers != [] && s.ix.entryOf <= s'.ix.entryOf && s.ix.count < |s'.ix.entryOf|
    requires if s.producer.at.PKey? then s'.ix.count == s.ix.count && s.producer.entry == s'.ix.entryOf[s'.ix.count]
             else s'.ix.count == s.ix.count + 1 && s'.ix.entryOf == s.ix.entryOf
    ensures ProducerOk(s') && ProducerIndexOk(s') && WrittenOk(s')
  {
  }

  // Blocks

  lemma TakenOwners(owner: seq<Owner>, home: seq<Bid>, cleared: set<nat>, chain: seq<Bid>, free: set<Bid>, b: Bid)
    requires OwnOk(owner, home, cleared, chain, 0) && FreeOk(free, owner) && b in free
    ensures OwnOk(owner[b := Held], home, cleared, chain, 0) && FreeOk(free - {b}, owner[b := Held])
  {
    var owner' := owner[b := Held];
    forall m | 0 <= m < |home| && m !in cleared ensures home[m] < |owner'| && owner'[home[m]] == Number(m) {
      assert owner[home[m]] == Number(m);
    }
    forall x | 0 <= x < |chain| ensures chain[x] < |owner'| && owner'[chain[x]] == Number(|home| + x) {
      assert owner[chain[x]] == Number(|home| + x);
    }
  }

  lemma InstalledOwners(owner: seq<Owner>, home: seq<Bid>, cleared: set<nat>, chain: seq<Bid>, free: set<Bid>, b: Bid)
    requires OwnOk(owner, home, cleared, chain, 0) && FreeOk(free, owner) && b < |owner| && owner[b] == Held
    ensures OwnOk(owner[b := Number(|home| + |chain|)], home, cleared, chain + [b], 0) && FreeOk(free, owner[b := Number(|home| + |chain|)])
  {
    var owner' := owner[b := Number(|home| + |chain|)];
    forall m | 0 <= m < |home| && m !in cleared ensures home[m] < |owner'| && owner'[home[m]] == Number(m) {
      assert owner[home[m]] == Number(m);
    }
    forall x | 0 <= x < |chain| ensures chain[x] < |owner'| && owner'[chain[x]] == Number(|home| + x) {
      assert owner[chain[x]] == Number(|home| + x);
    }
  }

  /** A block taken from the pool, or none. */
  lemma RequisitionKeepsInv(s: State, got: Option<Bid>)
    requires Inv(s) && s.producer.at.PRequisition? && (got.Some? ==> got.value in s.free && got.value < |s.owner|)
    ensures ProducerSafe(s) && Inv(AcquireStep(s, got))
  {
    hide IndexOk, ValuesOk, OwnOk, ContentsOk, LogOk, CoverOk, WrittenOk, Expected, CountsOk;
    var s' := AcquireStep(s, got);
    if got.Some? {
      TakenOwners(s.owner, s.home, s.cleared, s.producer.chain, s.free, got.value);
    }
    assert Shape(s');
    AssembleMemory(s');
    AcquireProducer(s, s');
    assert ConsumersUntouched(s, s');
    ConsumersStay(s, s');
    Assemble(s');
  }

  lemma AcquireProducer(s: State, s': State)
    requires ProducerOk(s) && ProducerIndexOk(s) && s.producer.at.PRequisition?
    requires s'.tailIndex == s.tailIndex && s'.headIndex == s.headIndex && s'.home == s.home && s'.ix == s.ix
    requires s'.producer == s.producer.(at := PRewind)
             || (s'.producer == s.producer.(at := PReset, block := s'.producer.block)
                 && s'.producer.block < |s'.owner| && s'.owner[s'.producer.block] == Held)
    ensures ProducerOk(s') && ProducerIndexOk(s') && WrittenOk(s')
  {
  }

  lemma ResetKeepsInv(s: State)
    requires Inv(s) && s.producer.at.PReset?
    ensures ProducerSafe(s) && Inv(AcquireStep(s, None))
  {
    hide IndexOk, ValuesOk, OwnOk, FreeOk, CountsOk, ContentsOk, LogOk, ThreadsOk, CoverOk;
    var s', b := AcquireStep(s, None), s.producer.block;
    SameSlots(s, s.(blocks := s'.blocks));
    ResetCounts(s);
    AssembleMemory(s');
    ResetProducer(s, s');
    assert ConsumersUntouched(s, s');
    ConsumersStay(s, s');
    Assemble(s');
  }

  lemma ResetCounts(s: State)
    requires MemoryOk(s) && s.producer.block < |s.owner| && s.owner[s.producer.block] == Held
    ensures CountsOk(s.blocks[s.producer.block := s.blocks[s.producer.block].(done := 0)], s.home, s.cleared, s.counted,
                     s.producer.chain, s.producer.freed)
  {
    assert forall k | 0 <= k < |s.home| && k !in s.cleared :: s.owner[s.home[k]] == Number(k);
    assert forall x | s.producer.freed <= x < |s.producer.chain| :: s.owner[s.producer.chain[x]] == Number(|s.home| + x);
  }

  lemma ResetProducer(s: State, s': State)
    requires ProducerOk(s) && ProducerIndexOk(s) && s.producer.at.PReset? && s.producer.block < |s.blocks|
    requires s' == s.(blocks := s.blocks[s.producer.block := s.blocks[s.producer.block].(done := 0)], producer := s.producer.(at := PValue))
    ensures ProducerOk(s') && ProducerIndexOk(s') && WrittenOk(s')
  {
  }

  /** The new block's entry gets its value: from here on its number leads to it. */
  lemma ValueStored(s: State)
    requires Inv(s) && s.producer.at.PValue?
    ensures ProducerSafe(s)
    ensures var s' := AcquireStep(s, None);
            && IndexOk(s'.ix) && Extends(s.ix, s'.ix) && s'.ix == s.ix.(entries := s'.ix.entries)
            && ValuesOk(s'.ix, s'.home, s'.producer.chain, s'.producer.undone, s'.cleared)
  {
    hide OwnOk, FreeOk, CountsOk, ContentsOk, LogOk, ThreadsOk, CoverOk, WrittenOk, IndexOk;
    var k := NextNumber(s);
    ValueChanges(s.ix, k, Some(s.producer.block));
    var s' := AcquireStep(s, None);
    forall m | s.ix.lo <= m < |s.ix.entryOf| ensures ValueOf(s'.ix, m) == Expected(s.home, s'.producer.chain, 0, s.cleared, m) {
      assert ValueOf(s.ix, m) == Expected(s.home, s.producer.chain, 0, s.cleared, m);
    }
  }

  lemma InstalledCounts(s: State)
    requires MemoryOk(s) && s.producer.freed == 0 && s.producer.block < |s.blocks| && s.blocks[s.producer.block].done == 0
    ensures CountsOk(s.blocks, s.home, s.cleared, s.counted, s.producer.chain + [s.producer.block], 0)
  {
  }

  lemma ValueMemory(s: State, s': State)
    requires MemoryOk(s) && s.producer.freed == 0 && s.producer.block < |s.blocks| && s.blocks[s.producer.block].done == 0
    requires s.owner[s.producer.block] == Held && s'.ix.lo == s.ix.lo && IndexOk(s'.ix)
    requires s' == s.(ix := s'.ix, owner := s.owner[s.producer.block := Number(NextNumber(s))],
                      producer := s.producer.(at := PNext, chain := s.producer.chain + [s.producer.block]))
    requires ValuesOk(s'.ix, s'.home, s'.producer.chain, s'.producer.undone, s'.cleared)
    ensures MemoryOk(s')
  {
    InstalledOwners(s.owner, s.home, s.cleared, s.producer.chain, s.free, s.producer.block);
    InstalledCounts(s);
    AssembleMemory(s');
  }

  lemma ValueProducer(s: State)
    requires ProducerOk(s) && ProducerIndexOk(s) && s.producer.at.PValue? && ProducerSafe(s)
    ensures var s' := AcquireStep(s, None); ProducerOk(s') && ProducerIndexOk(s') && WrittenOk(s')
  {
  }

  lemma ValueKeepsInv(s: State)
    requires Inv(s) && s.producer.at.PValue?
    ensures ProducerSafe(s) && Inv(AcquireStep(s, None))
  {
    hide IndexOk, ValuesOk, OwnOk, FreeOk, CountsOk, ContentsOk, LogOk, ThreadsOk, CoverOk;
    ValueStored(s);
    var s' := AcquireStep(s, None);
    ValueMemory(s, s');
    ValueProducer(s);
    assert ConsumersUntouched(s, s');
    ConsumersStay(s, s');
    Assemble(s');
  }

  // Undoing

  lemma RewindStored(s: State)
    requires Inv(s) && (s.producer.at.PRewind? || s.producer.at.PUndoRewind?)
    ensures ProducerSafe(s)
    ensures var ix' := Rewind(s.ix);
            && IndexOk(ix') && Extends(s.ix, ix') && ix'.lo == s.ix.lo && ix'.entryOf == s.ix.entryOf && ix'.count == s.ix.count - 1
            && ix'.headers != [] && ValuesOk(ix', s.home, s.producer.chain, s.producer.undone, s.cleared)
  {
    hide OwnOk, FreeOk, CountsOk, ContentsOk, LogOk, ThreadsOk, CoverOk, WrittenOk;
    RewindSummary(s.ix);
    var ix' := Rewind(s.ix);
    assert forall k | s.ix.lo <= k < |s.ix.entryOf| :: ValueOf(ix', k) == ValueOf(s.ix, k);
  }

  lemma RewindKeepsInv(s: State)
    requires Inv(s) && (s.producer.at.PRewind? || s.producer.at.PUndoRewind?)
    ensures ProducerSafe(s) && Inv(UndoStep(s))
  {
    hide IndexOk, ValuesOk, OwnOk, FreeOk, CountsOk, ContentsOk, LogOk, ThreadsOk, CoverOk, WrittenOk;
    RewindStored(s);
    var s' := UndoStep(s);
    IndexMemory(s, s');
    RewindProducer(s, s');
    assert ConsumersUntouched(s, s');
    ConsumersStay(s, s');
    Assemble(s');
  }

  lemma RewindProducer(s: State, s': State)
    requires ProducerOk(s) && ProducerIndexOk(s) && (s.producer.at.PRewind? || s.producer.at.PUndoRewind?)
    requires s' == s.(ix := s'.ix, producer := s.producer.(at := if s.producer.at.PRewind? then PNull else PUndo))
    requires s'.ix.headers != [] && s'.ix.entryOf == s.ix.entryOf && s'.ix.count == s.ix.count - 1
    ensures ProducerOk(s') && ProducerIndexOk(s') && WrittenOk(s')
  {
  }

  /** The entry nulled while undoing is that of the block being undone: the producer's own lookup
      finds it although the tail has been rewound past it. */
  lemma UndoFinds(s: State)
    requires Inv(s) && s.producer.at.PUndo? && s.producer.undone < |s.producer.chain|
    ensures Usable(s.ix) && s.ix.lo <= |s.home| + s.producer.undone < |s.ix.entryOf|
    ensures FoundEntry(s.ix, |s.home| + s.producer.undone) == s.ix.entryOf[|s.home| + s.producer.undone]
    ensures ProducerSafe(s)
  {
    hide OwnOk, FreeOk, CountsOk, ContentsOk, LogOk, ThreadsOk, CoverOk, WrittenOk;
    var h, k := Current(s.ix), |s.home| + s.producer.undone;
    assert HeaderOk(s.ix, h) && CurrentOk(s.ix);
    LookupFinds(s.ix, |s.ix.headers| - 1, h.tail, s.ix.count - 1, k);
    assert ValueOf(s.ix, k) == Expected(s.home, s.producer.chain, s.producer.undone, s.cleared, k);
  }

  /** Nulling an entry for block number k, one that is to be null. */
  lemma NullStored(s: State, k: nat, undone: nat)
    requires Inv(s) && s.ix.lo <= k < |s.ix.entryOf|
    requires forall m: nat :: Expected(s.home, s.producer.chain, undone, s.cleared, m)
                              == if m == k then None else Expected(s.home, s.producer.chain, s.producer.undone, s.cleared, m)
    ensures s.ix.entryOf[k] < |s.ix.entries|
    ensures var ix' := StoreValue(s.ix, s.ix.entryOf[k], None);
            IndexOk(ix') && Extends(s.ix, ix') && ix' == s.ix.(entries := ix'.entries)
            && ValuesOk(ix', s.home, s.producer.chain, undone, s.cleared)
  {
    ValueChanges(s.ix, k, None);
    var ix' := StoreValue(s.ix, s.ix.entryOf[k], None);
    forall m | s.ix.lo <= m < |s.ix.entryOf| ensures ValueOf(ix', m) == Expected(s.home, s.producer.chain, undone, s.cleared, m) {
      assert ValueOf(s.ix, m) == Expected(s.home, s.producer.chain, s.producer.undone, s.cleared, m);
    }
  }

  lemma NulledKeepsInv(s: State, s': State)
    requires Inv(s) && (s.producer.at.PNull? || (s.producer.at.PUndo? && s.producer.undone < |s.producer.chain|))
    requires s' == s.(ix := s.ix.(entries := s'.ix.entries), producer := s'.producer)
    requires s'.producer == if s.producer.at.PNull? then s.producer.(at := PUndo)
                            else s.producer.(at := PUndoRewind, undone := s.producer.undone + 1)
    requires IndexOk(s'.ix) && Extends(s.ix, s'.ix) && ValuesOk(s'.ix, s.home, s.producer.chain, s'.producer.undone, s.cleared)
    ensures Inv(s')
  {
    IndexMemory(s, s');
    NullProducer(s, s');
    ConsumersStay(s, s');
    Assemble(s');
  }

  lemma NullKeepsInv(s: State)
    requires Inv(s) && s.producer.at.PNull?
    ensures ProducerSafe(s) && Inv(UndoStep(s))
  {
    NullStored(s, NextNumber(s), 0);
    NulledKeepsInv(s, UndoStep(s));
  }

  lemma UndoKeepsInv(s: State)
    requires Inv(s) && s.producer.at.PUndo? && s.producer.undone < |s.producer.chain|
    ensures ProducerSafe(s) && Inv(UndoStep(s))
  {
    hide FreeOk, CountsOk, ContentsOk, LogOk, ThreadsOk, CoverOk, WrittenOk, StoreValue, IndexOk, OwnOk;
    UndoFinds(s);
    var k := |s.home| + s.producer.undone;
    NullStored(s, k, s.producer.undone + 1);
    var s' := s.(ix := StoreValue(s.ix, s.ix.entryOf[k], None),
                 producer := s.producer.(at := PUndoRewind, undone := s.producer.undone + 1));
    assert UndoStep(s) == s';
    NulledKeepsInv(s, s');
  }

  lemma NullProducer(s: State, s': State)
    requires ProducerOk(s) && ProducerIndexOk(s) && (s.producer.at.PNull? || (s.producer.at.PUndo? && s.producer.undone < |s.producer.chain|))
    requires s' == s.(ix := s.ix.(entries := s'.ix.entries),
                      producer := if s.producer.at.PNull? then s.producer.(at := PUndo)
                                  else s.producer.(at := PUndoRewind, undone := s.producer.undone + 1))
    ensures ProducerOk(s') && ProducerIndexOk(s') && WrittenOk(s')
  {
  }

  /** All undone: the acquired blocks go to the pool one by one, and the call fails. */
  lemma FreedMemory(s: State)
    requires MemoryOk(s) && ProducerOk(s) && s.producer.at.PFree? && s.producer.freed < |s.producer.chain|
    ensures ProducerSafe(s) && MemoryOk(UndoStep(s)) && s.owner[s.producer.chain[s.producer.freed]].Number?
  {
    hide IndexOk, ValuesOk, ContentsOk;
    var s', p := UndoStep(s), s.producer;
    assert s.owner[p.chain[p.freed]] == Number(|s.home| + p.freed);
    forall m | 0 <= m < |s.home| && m !in s.cleared ensures s.home[m] < |s'.owner| && s'.owner[s.home[m]] == Number(m) {
      assert s.owner[s.home[m]] == Number(m);
    }
    forall x | p.freed + 1 <= x < |p.chain| ensures p.chain[x] < |s'.owner| && s'.owner[p.chain[x]] == Number(|s.home| + x) {
      assert s.owner[p.chain[x]] == Number(|s.home| + x);
    }
    assert FreeOk(s'.free, s'.owner);
    AssembleMemory(s');
  }

  lemma FailedMemory(s: State)
    requires MemoryOk(s) && s.producer.undone == |s.producer.chain|
    ensures MemoryOk(s.(producer := IDLE_PRODUCER))
  {
    var s' := s.(producer := IDLE_PRODUCER);
    forall m | s.ix.lo <= m < |s.ix.entryOf| ensures ValueOf(s.ix, m) == Expected(s.home, [], 0, s.cleared, m) {
      assert ValueOf(s.ix, m) == Expected(s.home, s.producer.chain, s.producer.undone, s.cleared, m);
    }
    AssembleMemory(s');
  }

  lemma FreeProducer(s: State, s': State)
    requires ProducerOk(s) && ProducerIndexOk(s) && |s.home| == Blocks(s.tailIndex)
    requires s.producer.at.PFree? || (s.producer.at.PUndo? && s.producer.undone == |s.producer.chain|)
    requires s'.tailIndex == s.tailIndex && s'.headIndex == s.headIndex && s'.home == s.home && s'.ix == s.ix
    requires s'.producer == (if s.producer.at.PUndo? then s.producer.(at := PFree)
                             else if s.producer.freed == |s.producer.chain| then IDLE_PRODUCER
                             else s.producer.(freed := s.producer.freed + 1))
    ensures ProducerOk(s') && ProducerIndexOk(s') && WrittenOk(s')
  {
  }

  lemma FreeKeepsInv(s: State)
    requires Inv(s) && (s.producer.at.PFree? || (s.producer.at.PUndo? && s.producer.undone == |s.producer.chain|))
    ensures ProducerSafe(s) && Inv(UndoStep(s))
  {
    hide IndexOk, ValuesOk, OwnOk, FreeOk, CountsOk, ContentsOk, LogOk, ThreadsOk, CoverOk, WrittenOk;
    var p := s.producer;
    if p.at.PUndo? { MemorySame(s, s.(producer := p.(at := PFree))); }
    else if p.freed < |p.chain| { FreedMemory(s); }
    else { FailedMemory(s); }
    var s' := UndoStep(s);
    FreeProducer(s, s');
    assert ConsumersUntouched(s, s');
    ConsumersStay(s, s');
    Assemble(s');
  }

  lemma MemorySame(s: State, s': State)
    requires MemoryOk(s) && s' == s.(producer := s'.producer)
    requires s'.producer.chain == s.producer.chain && s'.producer.undone == s.producer.undone && s'.producer.freed == s.producer.freed
    ensures MemoryOk(s')
  {
  }

  // Writing

  /** The block the source writes element j to, the tail block or an acquired one, is the one that
      the element's index belongs to, and it is this queue's own. */
  lemma TargetIsHome(s: State, j: nat)
    requires MemoryOk(s) && ProducerOk(s) && s.producer.at.PWrite? && j < |s.producer.items|
    ensures var x := s.tailIndex + j;
            && Target(s, j) == HomeOf(s, x) && Target(s, j) < |s.blocks| && |s.blocks[Target(s, j)].slots| == BLOCK_SIZE
            && x / BLOCK_SIZE < |s.home| + |s.producer.chain| && x / BLOCK_SIZE !in s.cleared
            && s.owner[Target(s, j)] == Number(x / BLOCK_SIZE)
  {
    NewIndexHome(s, j);
    var k := (s.tailIndex + j) / BLOCK_SIZE;
    if k >= |s.home| { assert s.owner[s.producer.chain[k - |s.home|]] == Number(|s.home| + (k - |s.home|)); }
  }

  lemma WriteContents(s: State)
    requires MemoryOk(s) && ProducerOk(s) && s.producer.at.PWrite? && s.producer.written < |s.producer.items| && ProducerSafe(s)
    ensures var s' := WriteStep(s); ContentsOk(s'.enqueued, s'.home, s'.blocks, s'.delivered)
  {
    hide IndexOk, ValuesOk, OwnOk, FreeOk, CountsOk;
    var s', j := WriteStep(s), s.producer.written;
    TargetIsHome(s, j);
    forall x | 0 <= x < |s.enqueued| && x !in s.delivered
      ensures x / BLOCK_SIZE < |s.home| && Holds(s'.blocks, s.home[x / BLOCK_SIZE], x, s.enqueued[x])
    {
      assert Holds(s.blocks, s.home[x / BLOCK_SIZE], x, s.enqueued[x]);
      StillHome(s, x);
      DifferentSlots(s, x, s.tailIndex + j);
    }
  }

  lemma WrittenAt(s: State, y: nat)
    requires MemoryOk(s) && ProducerOk(s) && s.producer.at.PWrite? && y <= s.producer.written < |s.producer.items|
    requires y < s.producer.written ==> Holds(s.blocks, HomeOf(s, s.tailIndex + y), s.tailIndex + y, s.producer.items[y])
    ensures var j := s.producer.written;
            Holds(SetSlot(s.blocks, Target(s, j), s.tailIndex + j, Some(s.producer.items[j])),
                  HomeOf(s, s.tailIndex + y), s.tailIndex + y, s.producer.items[y])
  {
    hide IndexOk, ValuesOk, OwnOk, FreeOk, CountsOk, ContentsOk, Shape;
    TargetIsHome(s, s.producer.written);
    if y < s.producer.written {
      TargetIsHome(s, y);
      DifferentSlots(s, s.tailIndex + y, s.tailIndex + s.producer.written);
    }
  }

  lemma WriteWritten(s: State)
    requires MemoryOk(s) && ProducerOk(s) && WrittenOk(s) && s.producer.at.PWrite? && s.producer.written < |s.producer.items| && ProducerSafe(s)
    ensures WrittenOk(WriteStep(s))
  {
    hide IndexOk, ValuesOk, OwnOk, FreeOk, CountsOk, ContentsOk, Shape, Holds, Target;
    var s', p := WriteStep(s), s.producer;
    forall y | 0 <= y < p.written + 1 ensures Holds(s'.blocks, HomeOf(s', s.tailIndex + y), s.tailIndex + y, p.items[y]) {
      assert y < p.written ==> Holds(s.blocks, HomeOf(s, s.tailIndex + y), s.tailIndex + y, p.items[y]);
      WrittenAt(s, y);
    }
  }

  lemma WriteMemory(s: State)
    requires MemoryOk(s) && ProducerOk(s) && s.producer.at.PWrite? && s.producer.written < |s.producer.items| && ProducerSafe(s)
    ensures MemoryOk(WriteStep(s))
  {
    WriteContents(s);
    AssembleMemory(WriteStep(s));
  }

  lemma WriteProducer(s: State)
    requires ProducerOk(s) && ProducerIndexOk(s) && s.producer.at.PWrite? && s.producer.written < |s.producer.items| && ProducerSafe(s)
    ensures ProducerOk(WriteStep(s)) && ProducerIndexOk(WriteStep(s))
  {
  }

  /** The assertions of the writing loop hold. */
  lemma WriteSafe(s: State)
    requires MemoryOk(s) && ProducerOk(s) && s.producer.at.PWrite?
    ensures ProducerSafe(s)
  {
    hide IndexOk, ValuesOk, OwnOk, FreeOk, CountsOk, ContentsOk, Target;
    if s.producer.written < |s.producer.items| { TargetIsHome(s, s.producer.written); }
  }

  lemma WriteKeepsInv(s: State)
    requires Inv(s) && s.producer.at.PWrite? && s.producer.written < |s.producer.items|
    ensures ProducerSafe(s) && Inv(WriteStep(s))
  {
    hide IndexOk, ValuesOk, OwnOk, FreeOk, CountsOk, ContentsOk, LogOk, ThreadsOk, CoverOk, ProducerSafe, Target;
    WriteSafe(s);
    WriteWritten(s);
    WriteMemory(s);
    WriteProducer(s);
    var s' := WriteStep(s);
    assert ConsumersUntouched(s, s');
    ConsumersStay(s, s');
    Assemble(s');
  }

  lemma PublishContents(s: State)
    requires MemoryOk(s) && ProducerOk(s) && WrittenOk(s) && s.producer.at.PWrite? && s.producer.written == |s.producer.items|
    ensures var s' := WriteStep(s); ContentsOk(s'.enqueued, s'.home, s'.blocks, s'.delivered)
  {
    hide IndexOk, ValuesOk, OwnOk, FreeOk, CountsOk, Holds, ProducerSafe;
    WriteSafe(s);
    var s' := WriteStep(s);
    forall x | 0 <= x < |s'.enqueued| && x !in s'.delivered
      ensures x / BLOCK_SIZE < |s'.home| && Holds(s'.blocks, s'.home[x / BLOCK_SIZE], x, s'.enqueued[x])
    {
      if x < s.tailIndex {
        assert Holds(s.blocks, s.home[x / BLOCK_SIZE], x, s.enqueued[x]);
      } else {
        PublishedNew(s, x - s.tailIndex);
      }
    }
  }

  lemma PublishedNew(s: State, y: nat)
    requires MemoryOk(s) && ProducerOk(s) && WrittenOk(s) && s.producer.at.PWrite? && y < s.producer.written == |s.producer.items|
    ensures var x, home' := s.tailIndex + y, s.home + s.producer.chain;
            x / BLOCK_SIZE < |home'| && Holds(s.blocks, home'[x / BLOCK_SIZE], x, s.producer.items[y])
  {
    hide IndexOk, ValuesOk, OwnOk, FreeOk, CountsOk, ContentsOk, Holds, Shape;
    assert Holds(s.blocks, HomeOf(s, s.tailIndex + y), s.tailIndex + y, s.producer.items[y]);
    NewIndexHome(s, y);
  }

  lemma NewNumbersEmpty(s: State, k: nat)
    requires Shape(s) && k >= |s.home|
    ensures CountedIn(s.counted, k) == {} && !AllCounted(s.counted, k)
  {
    assert k * BLOCK_SIZE >= s.tailIndex;
    assert k * BLOCK_SIZE !in s.counted;
  }

  lemma PublishCounts(s: State)
    requires MemoryOk(s) && ProducerOk(s) && s.producer.at.PWrite?
    ensures CountsOk(s.blocks, s.home + s.producer.chain, s.cleared, s.counted, [], 0)
    ensures OwnOk(s.owner, s.home + s.producer.chain, s.cleared, [], 0)
    ensures ValuesOk(s.ix, s.home + s.producer.chain, [], 0, s.cleared)
  {
    var home' := s.home + s.producer.chain;
    forall k | 0 <= k < |home'| && k !in s.cleared
      ensures home'[k] < |s.blocks| && s.blocks[home'[k]].done == |CountedIn(s.counted, k)|
      ensures home'[k] < |s.owner| && s.owner[home'[k]] == Number(k)
    {
      if k >= |s.home| {
        NewNumbersEmpty(s, k);
        assert s.owner[s.producer.chain[k - |s.home|]] == Number(|s.home| + (k - |s.home|));
      }
    }
    forall k | s.ix.lo <= k < |s.ix.entryOf| ensures ValueOf(s.ix, k) == Expected(home', [], 0, s.cleared, k) {
      assert ValueOf(s.ix, k) == Expected(s.home, s.producer.chain, 0, s.cleared, k);
    }
  }

  lemma PublishShape(s: State)
    requires Shape(s) && ProducerOk(s) && s.producer.at.PWrite? && s.producer.written == |s.producer.items|
    ensures ProducerSafe(s) && Shape(WriteStep(s))
  {
  }

  lemma PublishProducer(s: State)
    requires Shape(s) && ProducerOk(s) && ProducerIndexOk(s) && s.producer.at.PWrite? && s.producer.written == |s.producer.items|
    ensures ProducerSafe(s) && ProducerOk(WriteStep(s)) && ProducerIndexOk(WriteStep(s)) && WrittenOk(WriteStep(s))
  {
    PublishShape(s);
  }

  lemma PublishKeepsInv(s: State)
    requires Inv(s) && s.producer.at.PWrite? && s.producer.written == |s.producer.items|
    ensures ProducerSafe(s) && Inv(WriteStep(s))
  {
    hide IndexOk, OwnOk, FreeOk, CountsOk, ContentsOk, LogOk, ThreadsOk, ValuesOk;
    PublishContents(s);
    PublishCounts(s);
    PublishShape(s);
    PublishProducer(s);
    var s' := WriteStep(s);
    AssembleMemory(s');
    forall k: nat | |s.home| <= k < |s'.home| ensures !AllCounted(s.counted, k) { NewNumbersEmpty(s, k); }
    assert ConsumersUntouched(s, s');
    ConsumersStay(s, s');
    Assemble(s');
  }

  // ----- all steps

  lemma ProduceKeepsInv(s: State, memory: bool, got: Option<Bid>)
    requires Inv(s) && Enabled(s, Produce(memory, got))
    ensures ProducerSafe(s) && Inv(ProducerStep(s, memory, got))
  {
    hide MemoryOk, ProducerIndexOk, WrittenOk, ThreadsOk, CoverOk, LogOk, ProducerSafe, ConsumerSafe;
    var p := s.producer;
    if Planning(p.at) { PlanKeepsInv(s, memory); }
    else if p.at.PKey? || p.at.PTail? { InsertKeepsInv(s); }
    else if p.at.PRequisition? { RequisitionKeepsInv(s, got); }
    else if p.at.PReset? { ResetKeepsInv(s); }
    else if p.at.PValue? { ValueKeepsInv(s); }
    else if p.at.PWrite? { if p.written < |p.items| { WriteKeepsInv(s); } else { PublishKeepsInv(s); } }
    else if p.at.PRewind? || p.at.PUndoRewind? { RewindKeepsInv(s); }
    else if p.at.PNull? { NullKeepsInv(s); }
    else if p.at.PUndo? && p.undone < |p.chain| { UndoKeepsInv(s); }
    else { FreeKeepsInv(s); }
  }

  lemma EnqueueKeepsInv(s: State, items: seq<Metric>)
    requires Inv(s) && s.producer.at.PIdle?
    ensures Inv(Step(s, Enqueue(items)))
  {
    hide IndexOk, OwnOk, FreeOk, CountsOk, ContentsOk, LogOk, ThreadsOk, CoverOk;
    var s' := Step(s, Enqueue(items));
    assert ValuesOk(s.ix, s.home, [], 0, s.cleared);
    AssembleMemory(s');
    EnqueueProducer(s, items);
    assert ConsumersUntouched(s, s');
    ConsumersStay(s, s');
    Assemble(s');
  }

  lemma EnqueueProducer(s: State, items: seq<Metric>)
    requires Shape(s) && ProducerOk(s) && ProducerIndexOk(s) && s.producer.at.PIdle?
    ensures var s' := Step(s, Enqueue(items)); ProducerOk(s') && ProducerIndexOk(s') && WrittenOk(s')
  {
  }

  /** No step ever crashes, and every step keeps the invariant. */
  lemma StepKeepsInv(s: State, a: Action)
    requires Inv(s) && Enabled(s, a)
    ensures Safe(s, a) && Inv(Step(s, a))
  {
    hide Inv, ProducerSafe, ConsumerSafe, ProducerStep, ConsumerStep;
    match a
    case Enqueue(items) => EnqueueKeepsInv(s, items);
    case Produce(memory, got) => ProduceKeepsInv(s, memory, got);
    case Claim(t, count) => ClaimKeepsInv(s, t, count);
    case Consume(t) => ConsumeKeepsInv(s, t);
    case Others(blocks, free) => OthersKeepInv(s, blocks, free);
  }

  lemma InitHasInv(s: State)
    requires Init(s)
    ensures Inv(s)
  {
    assert IndexOk(NO_INDEX);
    FirstIndexOk(NO_INDEX);
    forall t | 0 <= t < |s.threads| ensures ThreadOk(s, t) {}
  }
}
