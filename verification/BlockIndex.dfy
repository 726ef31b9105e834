/** The growing circular block index of an implicit producer (insert_block_index_entry,
rewind_block_index_tail, get_block_index_index_for_index, new_block_index).

The producer alone inserts, rewinds and grows; consumers look blocks up at any time, possibly
through a header that has been replaced since they loaded it. Block number k is the block of the
indices k * BLOCK_SIZE up to (k + 1) * BLOCK_SIZE - 1. */
module BlockIndex {

  import opened Arithmetic
  import opened Collections

  type Bid = nat
  type Eid = nat

  const BLOCK_SIZE: nat := 32
  const IMPLICIT_INITIAL_INDEX_SIZE: nat := 32

  /** No block starts at an odd index. */
  const INVALID_BLOCK_BASE: nat := 1

  datatype Entry = Entry(key: nat, value: Option<Bid>)

  /** `index` lists entries; its length is the capacity. Auxiliary: `origin`, the position (modulo
      the capacity) that belongs to block number 0, and `top`, one more than the largest block
      number that this header has ever given an entry. */
  datatype Header = Header(tail: nat, index: seq<Eid>, origin: int, top: nat)

  /** `headers` are all headers ever published; the last one is current. Auxiliary: `count`, how
      many blocks are inserted; `entryOf`, which entry each block number was given; `lo`, the
      least block number whose entry has not been given to another since. */
  datatype Index = Index(entries: seq<Entry>, headers: seq<Header>, count: nat, entryOf: seq<Eid>, lo: nat)

  // ----- the operations

  function Current(ix: Index): Header
    requires ix.headers != []
  {
    ix.headers[|ix.headers| - 1]
  }

  function SetCurrent(ix: Index, h: Header): Index
    requires ix.headers != []
  {
    ix.(headers := ix.headers[|ix.headers| - 1 := h])
  }

  /** Header fields are in range. */
  predicate Sound(ix: Index, h: Header) {
    h.tail < |h.index| && forall i | 0 <= i < |h.index| :: h.index[i] < |ix.entries|
  }

  predicate Usable(ix: Index) {
    ix.headers != [] && Sound(ix, Current(ix))
  }

  /** insert_block_index_entry: the entry after the tail. */
  function NextEntry(ix: Index): Eid
    requires Usable(ix)
  {
    var h := Current(ix);
    h.index[(h.tail + 1) % |h.index|]
  }

  /** ... is free if it was never used or its block has been given back. */
  predicate HasRoom(ix: Index)
    requires Usable(ix)
  {
    var e := ix.entries[NextEntry(ix)];
    e.key == INVALID_BLOCK_BASE || e.value == None
  }

  /** idxEntry->key.store(blockStartIndex), for the next block number. */
  function StoreKey(ix: Index): Index
    requires Usable(ix)
  {
    var e := NextEntry(ix);
    var ix1 := ix.(entries := ix.entries[e := ix.entries[e].(key := ix.count * BLOCK_SIZE)]);
    if ix.count < |ix.entryOf| then ix1
    else
      var h := Current(ix);
      SetCurrent(ix1, h.(top := |ix.entryOf| + 1))
      .(entryOf := ix.entryOf + [e], lo := if |ix.entryOf| - ix.lo == |h.index| then ix.lo + 1 else ix.lo)
  }

  /** localBlockIndex->tail.store(newTail) */
  function StoreTail(ix: Index): Index
    requires Usable(ix)
  {
    var h := Current(ix);
    SetCurrent(ix, h.(tail := (h.tail + 1) % |h.index|)).(count := ix.count + 1)
  }

  /** rewind_block_index_tail */
  function Rewind(ix: Index): Index
    requires Usable(ix)
  {
    var h := Current(ix);
    SetCurrent(ix, h.(tail := (h.tail - 1) % |h.index|)).(count := if ix.count > 0 then ix.count - 1 else 0)
  }

  /** idxEntry->value.store(value) */
  function StoreValue(ix: Index, e: Eid, value: Option<Bid>): Index
    requires e < |ix.entries|
  {
    ix.(entries := ix.entries[e := ix.entries[e].(value := value)])
  }

  /** new_block_index, when its allocation succeeds: the old entries in order from the one after
      the tail, then as many unused ones; a first index has IMPLICIT_INITIAL_INDEX_SIZE of them. */
  function Grow(ix: Index): Index
    requires ix.headers == [] || Usable(ix)
  {
    var kept := if ix.headers == [] then [] else Rotated(Current(ix));
    var added := if ix.headers == [] then IMPLICIT_INITIAL_INDEX_SIZE else |kept|;
    var index := kept + seq(added, i => |ix.entries| + i);
    var h := Header((|kept| - 1) % |index|, index, |kept| - ix.count, |ix.entryOf|);
    ix.(entries := ix.entries + seq(added, i => Entry(INVALID_BLOCK_BASE, None)), headers := ix.headers + [h])
  }

  /** The copying loop of new_block_index. */
  function Rotated(h: Header): (r: seq<Eid>)
    requires h.index != []
  {
    seq(|h.index|, i => h.index[(h.tail + 1 + i) % |h.index|])
  }

  /** Stepping round from the tail, one is back at the tail after as many steps as there are slots. */
  lemma RoundOnce(tail: nat, steps: nat, capacity: nat)
    requires tail < capacity && 1 <= steps <= capacity
    ensures (tail + steps) % capacity == tail <==> steps == capacity
    ensures ((tail + steps) % capacity + 1) % capacity == (tail + steps + 1) % capacity
  {
    ModAdd(tail + steps, 1, capacity);
    ModUnique(tail, 0, capacity, tail);
    if steps == capacity { ModUnique(tail + capacity, 1, capacity, tail); } else { ModDistinct(tail, tail + steps, capacity); }
  }

  lemma RotatedMore(h: Header, n: nat)
    requires h.index != [] && n < |h.index|
    ensures |Rotated(h)| == |h.index| && Rotated(h)[..n + 1] == Rotated(h)[..n] + [h.index[(h.tail + n + 1) % |h.index|]]
  {
  }

  /** The copying loop itself: round the old index once, from the entry after the tail to the tail. */
  method CopyEntries(prev: Header) returns (index: seq<Eid>)
    requires prev.tail < |prev.index|
    ensures index == Rotated(prev)
  {
    hide Rotated;
    var capacity := |prev.index|;
    var i := 1;
    var prevPos := (prev.tail + 1) % capacity;
    index := [prev.index[prevPos]];
    RotatedMore(prev, 0);
    assert index == Rotated(prev)[..1];
    RoundOnce(prev.tail, 1, capacity);
    while prevPos != prev.tail
      invariant 1 <= i <= capacity && prevPos == (prev.tail + i) % capacity && (prevPos == prev.tail <==> i == capacity)
      invariant |Rotated(prev)| == capacity && index == Rotated(prev)[..i]
      decreases capacity - i
    {
      RotatedMore(prev, i);
      RoundOnce(prev.tail, i, capacity);
      RoundOnce(prev.tail, i + 1, capacity);
      prevPos := (prevPos + 1) % capacity;
      index := index + [prev.index[prevPos]];
      i := i + 1;
    }
    assert Rotated(prev)[..capacity] == Rotated(prev);
  }

  /** get_block_index_index_for_index, once the header, its tail slot and that slot's key have been
      loaded: the slot for block number k. */
  function SlotFor(h: Header, tail: nat, tailBase: nat, k: nat): nat
    requires h.index != []
  {
    (tail + (k * BLOCK_SIZE - tailBase) / BLOCK_SIZE) % |h.index|
  }

  // ----- the invariant

  /** The position that belongs to block number k in an index of that origin and capacity. */
  function Pos(k: int, origin: int, capacity: nat): (p: nat)
    ensures capacity > 0 ==> p < capacity
  {
    if capacity == 0 then 0 else (k + origin) % capacity
  }

  ghost predicate HeaderOk(ix: Index, h: Header) {
    && Sound(ix, h)
    && h.top <= |ix.entryOf|
    && (forall k | ix.lo <= k < h.top :: h.index[Pos(k, h.origin, |h.index|)] == ix.entryOf[k])
  }

  ghost predicate EntriesOk(ix: Index) {
    forall k | ix.lo <= k < |ix.entryOf| ::
      ix.entryOf[k] < |ix.entries| && ix.entries[ix.entryOf[k]].key == k * BLOCK_SIZE
  }

  /** The current header lists different entries, those of the block numbers from `lo` on and
      otherwise unused ones; its tail is the last inserted block number's. */
  ghost predicate CurrentOk(ix: Index) {
    ix.headers != [] ==>
      var h := Current(ix);
      && Sound(ix, h)
      && h.top == |ix.entryOf| && |ix.entryOf| - ix.lo <= |h.index|
      && h.tail == Pos(ix.count - 1, h.origin, |h.index|)
      && (forall i, j | 0 <= i < j < |h.index| :: h.index[i] != h.index[j])
      && (forall k | |ix.entryOf| <= k < ix.lo + |h.index| ::
            ix.entries[h.index[Pos(k, h.origin, |h.index|)]] == Entry(INVALID_BLOCK_BASE, None))
  }

  ghost predicate HeadersOk(ix: Index) {
    forall j | 0 <= j < |ix.headers| :: HeaderOk(ix, ix.headers[j])
  }

  /** A header that is no longer current keeps the tail it had when it was full. */
  ghost predicate Frozen(h: Header) {
    h.index != [] && h.tail == Pos(h.top - 1, h.origin, |h.index|)
  }

  ghost predicate IndexOk(ix: Index) {
    && ix.lo <= ix.count <= |ix.entryOf|
    && (ix.headers == [] ==> ix.entryOf == [])
    && HeadersOk(ix)
    && (forall j | 0 <= j < |ix.headers| - 1 :: Frozen(ix.headers[j]))
    && EntriesOk(ix)
    && CurrentOk(ix)
  }

  /** The value stored for block number k. */
  function ValueOf(ix: Index, k: nat): Option<Bid> {
    if k < |ix.entryOf| && ix.entryOf[k] < |ix.entries| then ix.entries[ix.entryOf[k]].value else None
  }

  // ----- every operation keeps the invariant

  lemma TailMoves(h: Header, count: int, d: int)
    requires h.index != [] && h.tail == Pos(count, h.origin, |h.index|)
    ensures (h.tail + d) % |h.index| == Pos(count + d, h.origin, |h.index|)
  {
    ModAdd(count + h.origin, d, |h.index|);
  }

  /** The entry after the tail belongs to the next block number, has never been used, or was the
      oldest block number's. */
  lemma NextEntryIs(ix: Index)
    requires IndexOk(ix) && ix.headers != []
    ensures Usable(ix)
    ensures var h := Current(ix); NextEntry(ix) == h.index[Pos(ix.count, h.origin, |h.index|)]
    ensures ix.count < |ix.entryOf| ==> NextEntry(ix) == ix.entryOf[ix.count]
    ensures ix.count == |ix.entryOf| < ix.lo + |Current(ix).index| ==> ix.entries[NextEntry(ix)] == Entry(INVALID_BLOCK_BASE, None)
    ensures ix.count == |ix.entryOf| == ix.lo + |Current(ix).index| ==> NextEntry(ix) == ix.entryOf[ix.lo]
  {
    var h := Current(ix);
    assert HeaderOk(ix, h);
    TailMoves(h, ix.count - 1, 1);
    if ix.count == ix.lo + |h.index| {
      ModUniqueShift(ix.lo + h.origin, |h.index|);
    }
  }

  lemma TailOnly(ix: Index, ix': Index)
    requires IndexOk(ix) && ix.headers != [] && ix.lo <= ix'.count <= |ix.entryOf|
    requires var h := Current(ix); ix' == SetCurrent(ix, h.(tail := Pos(ix'.count - 1, h.origin, |h.index|))).(count := ix'.count)
    ensures IndexOk(ix')
  {
  }

  lemma StoreTailKeeps(ix: Index)
    requires IndexOk(ix) && ix.headers != [] && ix.count < |ix.entryOf|
    ensures Usable(ix) && IndexOk(StoreTail(ix))
  {
    assert HeaderOk(ix, Current(ix));
    TailMoves(Current(ix), ix.count - 1, 1);
    TailOnly(ix, StoreTail(ix));
  }

  lemma RewindKeeps(ix: Index)
    requires IndexOk(ix) && ix.headers != [] && ix.lo < ix.count
    ensures Usable(ix) && IndexOk(Rewind(ix))
  {
    assert HeaderOk(ix, Current(ix));
    TailMoves(Current(ix), ix.count - 1, -1);
    TailOnly(ix, Rewind(ix));
  }

  lemma StoreValueKeeps(ix: Index, k: nat, value: Option<Bid>)
    requires IndexOk(ix) && ix.lo <= k < |ix.entryOf|
    ensures ix.entryOf[k] < |ix.entries| && IndexOk(StoreValue(ix, ix.entryOf[k], value))
    ensures forall m | ix.lo <= m < |ix.entryOf| ::
              ValueOf(StoreValue(ix, ix.entryOf[k], value), m) == if m == k then value else ValueOf(ix, m)
  {
    hide Pos;
    var ix' := StoreValue(ix, ix.entryOf[k], value);
    forall j | 0 <= j < |ix'.headers| ensures HeaderOk(ix', ix'.headers[j]) {
      assert HeaderOk(ix, ix.headers[j]);
    }
    assert k * BLOCK_SIZE != INVALID_BLOCK_BASE;
  }

  /** Inserting again a block number that was inserted before and rewound changes nothing: the
      entry after the tail is still its own, key included. */
  lemma StoreKeyAgain(ix: Index)
    requires IndexOk(ix) && ix.headers != [] && ix.count < |ix.entryOf|
    ensures Usable(ix) && StoreKey(ix) == ix
  {
    NextEntryIs(ix);
  }

  lemma StoreKeyFreshHeaders(ix: Index)
    requires IndexOk(ix) && ix.headers != [] && ix.count == |ix.entryOf| < ix.lo + |Current(ix).index|
    ensures Usable(ix)
    ensures var ix' := StoreKey(ix); EntriesOk(ix') && forall j | 0 <= j < |ix'.headers| :: HeaderOk(ix', ix'.headers[j])
  {
    hide Frozen;
    NextEntryIs(ix);
    var ix' := StoreKey(ix);
    assert HeaderOk(ix, Current(ix));
    forall j | 0 <= j < |ix'.headers| ensures HeaderOk(ix', ix'.headers[j]) {
      assert HeaderOk(ix, ix.headers[j]);
    }
  }

  lemma StoreKeyFresh(ix: Index)
    requires IndexOk(ix) && ix.headers != [] && ix.count == |ix.entryOf| < ix.lo + |Current(ix).index|
    ensures Usable(ix) && IndexOk(StoreKey(ix))
  {
    NextEntryIs(ix);
    StoreKeyFreshHeaders(ix);
    var h, ix' := Current(ix), StoreKey(ix);
    assert CurrentOk(ix') by {
      forall k | |ix'.entryOf| <= k < ix'.lo + |h.index|
        ensures ix'.entries[h.index[Pos(k, h.origin, |h.index|)]] == Entry(INVALID_BLOCK_BASE, None)
      {
        ModDistinct(ix.count + h.origin, k + h.origin, |h.index|);
      }
    }
  }

  lemma StoreKeyRecycled(ix: Index)
    requires IndexOk(ix) && Full(ix)
    ensures Usable(ix) && IndexOk(StoreKey(ix))
  {
    NextEntryIs(ix);
    var h, e, ix' := Current(ix), NextEntry(ix), StoreKey(ix);
    assert HeaderOk(ix, h);
    forall j | 0 <= j < |ix'.headers| ensures HeaderOk(ix', ix'.headers[j]) {
      assert HeaderOk(ix, ix.headers[j]);
    }
    assert CurrentOk(ix');
  }

  /** Room runs out only when the current index is full of block numbers that are all in use. */
  lemma NoRoomMeansFull(ix: Index)
    requires IndexOk(ix) && Usable(ix) && !HasRoom(ix)
    requires ix.count < |ix.entryOf| ==> ValueOf(ix, ix.count) == None
    ensures Full(ix)
  {
    NextEntryIs(ix);
  }

  /** What new_block_index makes of a full index, position by position. */
  ghost predicate Grown(ix: Index, ix': Index) {
    && ix.headers != [] && |ix'.headers| == |ix.headers| + 1
    && (forall j | 0 <= j < |ix.headers| :: ix'.headers[j] == ix.headers[j])
    && ix'.count == ix.count && ix'.entryOf == ix.entryOf && ix'.lo == ix.lo
    && var h, h' := Current(ix), Current(ix');
    var c := |h.index|;
    && |ix'.entries| == |ix.entries| + c
    && (forall e | 0 <= e < |ix.entries| :: ix'.entries[e] == ix.entries[e])
    && (forall e | |ix.entries| <= e < |ix'.entries| :: ix'.entries[e] == Entry(INVALID_BLOCK_BASE, None))
    && |h'.index| == 2 * c && h'.origin == 0 - ix.lo && h'.tail == c - 1 && h'.top == |ix.entryOf|
    && (forall i | 0 <= i < c :: h'.index[i] == h.index[Pos(ix.lo + i, h.origin, c)])
    && (forall i | c <= i < 2 * c :: h'.index[i] == |ix.entries| + i - c)
  }

  predicate Full(ix: Index) {
    ix.headers != [] && ix.count == |ix.entryOf| == ix.lo + |Current(ix).index|
  }

  lemma RotatedFrom(ix: Index)
    requires IndexOk(ix) && Full(ix)
    ensures var h := Current(ix);
            h.index != [] && |Rotated(h)| == |h.index|
            && forall i | 0 <= i < |h.index| :: Rotated(h)[i] == h.index[Pos(ix.lo + i, h.origin, |h.index|)]
  {
    hide EntriesOk, HeadersOk, Frozen;
    var h := Current(ix);
    var c := |h.index|;
    forall i | 0 <= i < c ensures Rotated(h)[i] == h.index[Pos(ix.lo + i, h.origin, c)] {
      TailMoves(h, ix.count - 1, 1 + i);
      ModUniqueShift(ix.lo + i + h.origin, c);
    }
  }

  lemma GrowGrows(ix: Index)
    requires IndexOk(ix) && Full(ix)
    ensures Usable(ix) && Grown(ix, Grow(ix))
  {
    hide EntriesOk, HeadersOk, Frozen, Pos, Rotated;
    var c := |Current(ix).index|;
    RotatedFrom(ix);
    ModUnique(c - 1, 0, 2 * c, c - 1);
  }

  lemma WindowPosition(k: nat, lo: nat, capacity: nat)
    requires lo <= k < lo + capacity
    ensures Pos(k, 0 - lo, capacity) == k - lo
  {
  }

  lemma GrownDistinct(ix: Index, ix': Index)
    requires IndexOk(ix) && Full(ix) && Grown(ix, ix')
    ensures var h' := Current(ix'); Sound(ix', h') && forall i, j | 0 <= i < j < |h'.index| :: h'.index[i] != h'.index[j]
  {
  }

  lemma GrownCurrentOk(ix: Index, ix': Index)
    requires IndexOk(ix) && Full(ix) && Grown(ix, ix')
    ensures CurrentOk(ix')
  {
    var h' := Current(ix');
    GrownDistinct(ix, ix');
    WindowPosition(ix.count - 1, ix.lo, |h'.index|);
    forall k | ix.count <= k < ix.lo + |h'.index|
      ensures ix'.entries[h'.index[Pos(k, h'.origin, |h'.index|)]] == Entry(INVALID_BLOCK_BASE, None)
    {
      WindowPosition(k, ix.lo, |h'.index|);
    }
  }

  lemma GrownHeaderOk(ix: Index, ix': Index)
    requires IndexOk(ix) && Full(ix) && Grown(ix, ix')
    ensures HeaderOk(ix', Current(ix'))
  {
    var h, h' := Current(ix), Current(ix');
    GrownDistinct(ix, ix');
    assert HeaderOk(ix, h);
    forall k | ix.lo <= k < h'.top ensures h'.index[Pos(k, h'.origin, |h'.index|)] == ix.entryOf[k] {
      WindowPosition(k, ix.lo, |h'.index|);
      assert h'.index[k - ix.lo] == h.index[Pos(ix.lo + (k - ix.lo), h.origin, |h.index|)];
    }
  }

  lemma HeaderOkCarries(ix: Index, ix': Index, h: Header)
    requires HeaderOk(ix, h) && |ix.entries| <= |ix'.entries| && ix'.entryOf == ix.entryOf && ix'.lo == ix.lo
    ensures HeaderOk(ix', h)
  {
  }

  lemma GrownHeadersOk(ix: Index, ix': Index)
    requires IndexOk(ix) && Full(ix) && Grown(ix, ix')
    ensures HeadersOk(ix')
  {
    hide HeaderOk, EntriesOk, CurrentOk, Frozen, Full;
    forall j | 0 <= j < |ix'.headers| ensures HeaderOk(ix', ix'.headers[j]) {
      if j < |ix.headers| { HeaderOkCarries(ix, ix', ix.headers[j]); } else { GrownHeaderOk(ix, ix'); }
    }
  }

  lemma GrownFrozen(ix: Index, ix': Index, j: nat)
    requires IndexOk(ix) && Full(ix) && Grown(ix, ix') && j < |ix.headers|
    ensures Frozen(ix'.headers[j])
  {
  }

  lemma GrownEntriesOk(ix: Index, ix': Index)
    requires EntriesOk(ix) && Grown(ix, ix')
    ensures EntriesOk(ix')
  {
  }

  lemma GrownKeeps(ix: Index, ix': Index)
    requires IndexOk(ix) && Full(ix) && Grown(ix, ix')
    ensures IndexOk(ix')
  {
    GrownCurrentOk(ix, ix');
    GrownHeadersOk(ix, ix');
    GrownEntriesOk(ix, ix');
    forall j | 0 <= j < |ix'.headers| - 1 ensures Frozen(ix'.headers[j]) { GrownFrozen(ix, ix', j); }
  }

  lemma FirstIndexOk(ix: Index)
    requires IndexOk(ix) && ix.headers == []
    ensures IndexOk(Grow(ix))
  {
    var ix' := Grow(ix);
    ModUnique(-1, -1, IMPLICIT_INITIAL_INDEX_SIZE, IMPLICIT_INITIAL_INDEX_SIZE - 1);
    assert HeaderOk(ix', Current(ix'));
  }

  // ----- looking blocks up

  /** Nothing a consumer may have read from a header changes afterwards. */
  ghost predicate Extends(ix: Index, ix': Index) {
    && |ix.headers| <= |ix'.headers| && ix.entryOf <= ix'.entryOf
    && (forall j | 0 <= j < |ix.headers| ::
          ix'.headers[j].index == ix.headers[j].index && ix'.headers[j].origin == ix.headers[j].origin
          && ix.headers[j].top <= ix'.headers[j].top)
  }

  /** A consumer of block number k that loaded header number j, and its tail slot when that slot was
      block number `num`'s, finds k's entry, whatever the producer has done in between, provided
      k's entry has not been given to another block. */
  lemma LookupFinds(ix: Index, j: nat, tail: nat, num: nat, k: nat)
    requires IndexOk(ix) && j < |ix.headers| && ix.lo <= k
    requires var h := ix.headers[j]; k < h.top && ix.lo <= num < h.top && tail == Pos(num, h.origin, |h.index|)
    ensures var h := ix.headers[j];
            && Sound(ix, h) && tail < |h.index|
            && var tailBase := ix.entries[h.index[tail]].key;
            && tailBase != INVALID_BLOCK_BASE
            && SlotFor(h, tail, tailBase, k) == Pos(k, h.origin, |h.index|)
            && var e := h.index[SlotFor(h, tail, tailBase, k)];
            && e == ix.entryOf[k] && ix.entries[e].key == k * BLOCK_SIZE
  {
    var h := ix.headers[j];
    assert HeaderOk(ix, h);
    SlotShifts(tail, num, k, h);
  }

  lemma SlotShifts(tail: nat, num: nat, k: nat, h: Header)
    requires h.index != [] && tail == Pos(num, h.origin, |h.index|)
    ensures SlotFor(h, tail, num * BLOCK_SIZE, k) == Pos(k, h.origin, |h.index|)
  {
    assert (k * BLOCK_SIZE - num * BLOCK_SIZE) / BLOCK_SIZE == k - num;
    ModAdd(num + h.origin, k - num, |h.index|);
  }

  // ----- summaries, as the sub-queue uses them

  /** Storing the key of the next block number when there is room for it: at most the oldest
      entry changes hands, and only if its block has been given back. */
  lemma InsertKeeps(ix: Index)
    requires IndexOk(ix) && ix.headers != []
    requires Usable(ix) ==> HasRoom(ix)
    ensures Usable(ix) && var ix' := StoreKey(ix);
            && IndexOk(ix') && Extends(ix, ix') && ix'.count == ix.count < |ix'.entryOf| <= |ix.entryOf| + 1
            && (ix.count < |ix.entryOf| ==> ix' == ix)
            && NextEntry(ix) == ix'.entryOf[ix.count]
            && (ix'.lo == ix.lo || (ix'.lo == ix.lo + 1 && ValueOf(ix, ix.lo) == None))
            && (forall k | ix'.lo <= k < |ix.entryOf| :: ValueOf(ix', k) == ValueOf(ix, k))
            && (ix.count == |ix.entryOf| ==> ValueOf(ix', ix.count) == None)
  {
    hide Frozen, Pos;
    NextEntryIs(ix);
    if ix.count < |ix.entryOf| {
      StoreKeyAgain(ix);
    } else if |ix.entryOf| < ix.lo + |Current(ix).index| {
      StoreKeyFresh(ix);
    } else {
      StoreKeyRecycled(ix);
    }
  }

  lemma TailKeeps(ix: Index)
    requires IndexOk(ix) && ix.headers != [] && ix.count < |ix.entryOf|
    ensures Usable(ix) && var ix' := StoreTail(ix);
            IndexOk(ix') && Extends(ix, ix') && ix'.lo == ix.lo && ix'.entryOf == ix.entryOf && ix'.entries == ix.entries && ix'.count == ix.count + 1
  {
    StoreTailKeeps(ix);
  }

  lemma RewindSummary(ix: Index)
    requires IndexOk(ix) && ix.headers != [] && ix.lo < ix.count
    ensures Usable(ix) && var ix' := Rewind(ix);
            IndexOk(ix') && Extends(ix, ix') && ix'.lo == ix.lo && ix'.entryOf == ix.entryOf && ix'.entries == ix.entries && ix'.count == ix.count - 1
  {
    RewindKeeps(ix);
  }

  /** A grown index has room, and every block number keeps its entry and value. */
  ghost predicate GrownWell(ix: Index, ix': Index) {
    && IndexOk(ix') && Extends(ix, ix') && ix'.headers != [] && Usable(ix') && HasRoom(ix')
    && ix'.lo == ix.lo && ix'.entryOf == ix.entryOf && ix'.count == ix.count
    && (forall k | ix.lo <= k < |ix.entryOf| :: ValueOf(ix', k) == ValueOf(ix, k))
  }

  lemma GrownExtends(ix: Index, ix': Index)
    requires EntriesOk(ix) && Grown(ix, ix') && ix.headers != [] && |Current(ix).index| > 0
    ensures Extends(ix, ix')
    ensures forall k | ix.lo <= k < |ix.entryOf| :: ValueOf(ix', k) == ValueOf(ix, k)
    ensures |Current(ix').index| > |Current(ix).index|
  {
  }

  lemma RoomBeyond(ix: Index)
    requires IndexOk(ix) && ix.headers != [] && ix.count == |ix.entryOf| < ix.lo + |Current(ix).index|
    ensures Usable(ix) && HasRoom(ix) && ix.entries[NextEntry(ix)].key == INVALID_BLOCK_BASE
  {
    NextEntryIs(ix);
  }

  lemma GrowSummary(ix: Index)
    requires IndexOk(ix) && Full(ix)
    ensures Usable(ix) && GrownWell(ix, Grow(ix))
    ensures Grow(ix).entries[NextEntry(Grow(ix))].key == INVALID_BLOCK_BASE
  {
    GrowGrows(ix);
    GrownKeeps(ix, Grow(ix));
    assert HeaderOk(ix, Current(ix));
    GrownExtends(ix, Grow(ix));
    RoomBeyond(Grow(ix));
  }
}
