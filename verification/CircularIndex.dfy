/** The 64-bit arithmetic of indices (circular_less_than, size_approx, the masks of enqueue_bulk and
get_block_index_index_for_index): wherever an index wraps around, the code decides as the unbounded
indices of the other modules do. */
module CircularIndex {

  import opened Arithmetic

  import T = Tickets
  import S = SubQueue
  import B = BlockIndex
  import P = ProducerQueue

  const WORD: nat := 0x1_0000_0000_0000_0000
  const HALF := S.HALF

  /** An index as index_t holds it. */
  function Word(x: int): (w: nat)
    ensures w < WORD
  {
    x % WORD
  }

  // ----- comparison

  /** circular_less_than<index_t> */
  predicate CircularLess(a: nat, b: nat) {
    Word(a - b) > HALF
  }

  lemma WordDifference(a: int, b: int)
    ensures Word(Word(a) - Word(b)) == Word(a - b)
  {
    var x, y := a / WORD, b / WORD;
    assert Word(a) - Word(b) == (a - b) + (y - x) * WORD;
    ModUnique(a - b, (a - b) / WORD, WORD, Word(a - b));
    ModUnique(Word(a) - Word(b), (a - b) / WORD + y - x, WORD, Word(a - b));
  }

  /** Of indices less than the whole range apart, the comparison is right exactly when they are
      within half of it. */
  lemma ComparisonRange(a: int, b: int)
    requires 0 - WORD < a - b < WORD
    ensures (CircularLess(Word(a), Word(b)) == (a < b)) <==> 0 - HALF < a - b <= HALF
  {
    WordDifference(a, b);
  }

  /** The test for another block in enqueue: it is passed exactly if the queue with that block would
      still be shorter than half the range. */
  lemma LeewayTest(head: nat, tail: nat)
    requires head <= tail && tail - head < HALF
    ensures CircularLess(Word(head), Word(Word(tail) + B.BLOCK_SIZE)) <==> tail + B.BLOCK_SIZE - head < HALF
    ensures !CircularLess(Word(tail), Word(head))
  {
    hide Word, CircularLess;
    WordSum(tail, B.BLOCK_SIZE);
    ComparisonRange(head, tail + B.BLOCK_SIZE);
    ComparisonRange(tail, head);
  }

  lemma WordSum(a: int, b: int)
    ensures Word(Word(a) + b) == Word(a + b)
  {
    ModAdd(a, b, WORD);
  }

  /** size_approx */
  function SizeApprox(head: nat, tail: nat): nat {
    if CircularLess(head, tail) then Word(tail - head) else 0
  }

  /** In every state of every run, the wrapped indices give the true length of the queue. */
  lemma SizeIsExact(s0: P.State, schedule: seq<P.Action>)
    requires P.Init(s0)
    ensures var s := P.Run(s0, schedule);
            SizeApprox(Word(s.store.headIndex), Word(s.store.tailIndex)) == |P.Contents(s)|
  {
    hide P.Init, S.Inv, P.Run, CircularLess;
    P.LengthStaysBelowHalf(s0, schedule);
    P.InitHasInv(s0);
    P.RunKeepsInv(s0, schedule);
    P.ContentsFit(P.Run(s0, schedule));
    var head, tail := P.Run(s0, schedule).store.headIndex, P.Run(s0, schedule).store.tailIndex;
    ComparisonRange(head, tail);
    WordDifference(tail, head);
  }

  // ----- tickets

  /** dequeue's test of the tickets `taken`, less those paid back, against the tail. */
  predicate TicketTest(tail: nat, taken: nat, over: nat) {
    CircularLess(Word(taken - over), tail)
  }

  /** The number of elements that dequeue_bulk takes to be there. */
  function CountSeen(tail: nat, taken: nat, over: nat): nat {
    Word(tail - Word(taken - over))
  }

  /** As long as no more than half the range lies between, and only then, both forms of the ticket
      tests, on wrapped counters, pass exactly if there is room; and then dequeue_bulk sees how much. */
  lemma TicketTests(tail: nat, taken: nat, over: nat)
    requires 0 - WORD < tail - (taken - over) < WORD
    ensures var room, seen := tail - (taken - over), CountSeen(Word(tail), Word(taken), Word(over));
            && ((TicketTest(Word(tail), Word(taken), Word(over)) <==> room > 0) <==> 0 - HALF <= room < HALF)
            && ((CircularLess(0, seen) <==> room > 0) <==> 0 - HALF <= room < HALF)
            && (0 < room ==> seen == room)
  {
    WordDifference(taken, over);
    ComparisonRange(taken - over, tail);
    WordDifference(tail, taken - over);
    var room := tail - (taken - over);
    if room < 0 { ModUnique(room, -1, WORD, room + WORD); } else { ModUnique(room, 0, WORD, room); }
    var seen: int := Word(room);
    if seen > 0 { ModUnique(-seen, -1, WORD, WORD - seen); }
  }

  /** The locals of a thread after its first test, on wrapped counters. */
  function FirstTest(s: T.State, th: T.Thread): T.Thread {
    var seen := CountSeen(Word(th.tail), Word(s.optimistic), Word(th.over));
    if CircularLess(0, seen) then th.(at := T.TakeTicket, desired := if seen < th.max then seen else th.max) else th.(at := T.Idle)
  }

  /** ... and after its second one. */
  function SecondTest(s: T.State, th: T.Thread): T.Thread {
    var seen := CountSeen(Word(s.tailIndex), Word(th.mine), Word(th.over));
    var actual := if CircularLess(0, seen) then (if th.desired < seen then th.desired else seen) else 0;
    th.(at := if actual < th.desired then T.PayBack else T.ClaimHead, actual := actual)
  }

  /** So threads decide on 64-bit words as they do in the ticket protocol. */
  lemma TicketsDecideAlike(s: T.State, t: T.Tid)
    requires T.Enabled(s, T.Advance(t))
    ensures var th := s.threads[t];
            var th' := T.AdvanceStep(s, t).threads[t];
            && (th.at.LoadOptimistic? && 0 - HALF <= th.tail - (s.optimistic - th.over) < HALF ==> th' == FirstTest(s, th))
            && (th.at.ReloadTail? && 0 - HALF <= s.tailIndex - (th.mine - th.over) < HALF ==> th' == SecondTest(s, th))
  {
    hide CountSeen, CircularLess, Word;
    var th := s.threads[t];
    if th.at.LoadOptimistic? && 0 - HALF <= th.tail - (s.optimistic - th.over) < HALF { TicketTests(th.tail, s.optimistic, th.over); }
    if th.at.ReloadTail? && 0 - HALF <= s.tailIndex - (th.mine - th.over) < HALF { TicketTests(s.tailIndex, th.mine, th.over); }
  }

  // ----- masks

  /** Bitwise and. */
  function And(a: nat, b: nat): (r: nat)
    decreases a
  {
    if a == 0 || b == 0 then 0 else 2 * And(a / 2, b / 2) + if a % 2 == 1 && b % 2 == 1 then 1 else 0
  }

  lemma HalveMod(x: nat, c: nat)
    requires c > 0
    ensures x % (2 * c) == 2 * (x / 2 % c) + x % 2
  {
    var q := x / 2 / c;
    assert x / 2 == q * c + x / 2 % c;
    ModUnique(x, q, 2 * c, 2 * (x / 2 % c) + x % 2);
  }

  lemma {:induction false} LowBits(x: nat, n: nat)
    ensures And(x, Power(2, n) - 1) == x % Power(2, n)
  {
    if n > 0 {
      var c := Power(2, n - 1);
      LowBits(x / 2, n - 1);
      HalveMod(x, c);
      LowBit(x, c, And(x / 2, c - 1));
    }
  }

  lemma LowBit(x: nat, c: nat, high: nat)
    requires c > 0 && high == And(x / 2, c - 1)
    ensures And(x, 2 * c - 1) == 2 * high + x % 2
  {
    assert (2 * c - 1) / 2 == c - 1 && (2 * c - 1) % 2 == 1;
  }

  /** The bits of x in a mask of n bits and those outside it. */
  lemma {:induction false} AndComplement(x: nat, mask: nat, n: nat)
    requires x < Power(2, n) && mask < Power(2, n)
    ensures And(x, mask) + And(x, Power(2, n) - 1 - mask) == x
  {
    if n > 0 {
      var c := Power(2, n - 1);
      AndComplement(x / 2, mask / 2, n - 1);
      ComplementBit(x, mask, c);
    }
  }

  lemma ComplementBit(x: nat, mask: nat, c: nat)
    requires mask < 2 * c && And(x / 2, mask / 2) + And(x / 2, c - 1 - mask / 2) == x / 2
    ensures And(x, mask) + And(x, 2 * c - 1 - mask) == x
  {
    var rest := 2 * c - 1 - mask;
    assert rest / 2 == c - 1 - mask / 2 && rest % 2 == 1 - mask % 2;
    AndBit(x, mask);
    AndBit(x, rest);
  }

  lemma AndBit(a: nat, b: nat)
    ensures And(a, b) == 2 * And(a / 2, b / 2) + if a % 2 == 1 && b % 2 == 1 then 1 else 0
  {
    if a == 0 || b == 0 { assert And(a / 2, b / 2) == 0; }
  }

  lemma Powers()
    ensures Power(2, 5) == 32 && Power(2, 64) == WORD
  {
    assert Power(2, 4) == 16;
    hide Power;
    PowSum(1, 4);
    PowSum(4, 4);
    PowSum(8, 8);
    PowSum(16, 16);
    PowSum(32, 32);
  }

  lemma {:induction false} PowSum(m: nat, n: nat)
    ensures Power(2, m + n) == Power(2, m) * Power(2, n)
  {
    if m > 0 { PowSum(m - 1, n); }
  }

  // ----- block bases, block counts and index slots

  /** index & ~(BLOCK_SIZE - 1) */
  function BlockBase(index: nat): nat {
    And(index, WORD - B.BLOCK_SIZE)
  }

  lemma DivideSum(w: int, m: int)
    ensures (w + m * B.BLOCK_SIZE) / B.BLOCK_SIZE == w / B.BLOCK_SIZE + m
  {
  }

  lemma BaseOfWord(x: int)
    ensures Word(x / B.BLOCK_SIZE * B.BLOCK_SIZE) == Word(x) - Word(x) % B.BLOCK_SIZE
  {
    var w, q := Word(x), x / WORD;
    DivideSum(w, q * (WORD / B.BLOCK_SIZE));
    ModUnique(x / B.BLOCK_SIZE * B.BLOCK_SIZE, q, WORD, w - w % B.BLOCK_SIZE);
  }

  lemma BlockBaseIs(x: int)
    ensures BlockBase(Word(x)) == Word(x / B.BLOCK_SIZE * B.BLOCK_SIZE)
  {
    hide And, Power;
    Powers();
    AndComplement(Word(x), B.BLOCK_SIZE - 1, 64);
    LowBits(Word(x), 5);
    BaseOfWord(x);
  }

  /** blockBaseDiff of enqueue_bulk, which its loop brings down to 0 by BLOCK_SIZE at a time. */
  function BlockBaseDiff(tail: nat, count: nat): nat {
    Word(BlockBase(Word(tail + count - 1)) - BlockBase(Word(tail - 1)))
  }

  /** However the tail wraps, as many blocks are acquired as the elements need. */
  lemma AcquiresNewBlocks(tail: nat, count: nat)
    requires count + B.BLOCK_SIZE < WORD
    ensures BlockBaseDiff(Word(tail), count) == S.NewBlocks(tail, count) * B.BLOCK_SIZE
  {
    hide BlockBase, And, Power, Word;
    WordSum(tail, count - 1);
    WordSum(tail, -1);
    BlockBaseIs(tail + count - 1);
    BlockBaseIs(tail - 1);
    WordDifference((tail + count - 1) / B.BLOCK_SIZE * B.BLOCK_SIZE, (tail - 1) / B.BLOCK_SIZE * B.BLOCK_SIZE);
    NewBlocksBound(tail, count);
    SmallWord(S.NewBlocks(tail, count) * B.BLOCK_SIZE);
  }

  lemma SmallWord(x: nat)
    requires x < WORD
    ensures Word(x) == x
  {
  }

  lemma NewBlocksBound(tail: nat, count: nat)
    ensures 0 <= S.NewBlocks(tail, count) * B.BLOCK_SIZE < count + B.BLOCK_SIZE
  {
  }

  /** The slot that get_block_index_index_for_index computes for an index. BLOCK_SIZE being a
      size_t, the division is unsigned although the dividend is cast to a signed type. */
  function Slot(index: nat, tailBase: nat, tail: nat, capacity: nat): nat
    requires capacity > 0
  {
    var offset := Word(BlockBase(index) - tailBase) / B.BLOCK_SIZE;
    And(Word(tail + offset), capacity - 1)
  }

  lemma OffsetBehind(d: nat)
    requires d * B.BLOCK_SIZE < WORD
    ensures Word(0 - d * B.BLOCK_SIZE) / B.BLOCK_SIZE == if d == 0 then 0 else WORD / B.BLOCK_SIZE - d
  {
    if d > 0 { ModUnique(0 - d * B.BLOCK_SIZE, -1, WORD, WORD - d * B.BLOCK_SIZE); }
  }

  lemma AddMultiple(a: int, m: nat, c: nat)
    requires c > 0 && m > 0
    ensures (a + m * c) % c == a % c && c <= m * c
  {
    MulBounds(m, c);
    assert a + m * c == (a / c + m) * c + a % c;
    ModUnique(a + m * c, a / c + m, c, a % c);
  }

  lemma WholeRounds(a: int, n: nat)
    requires n <= 59
    ensures (a + WORD / B.BLOCK_SIZE) % Power(2, n) == a % Power(2, n)
    ensures Power(2, n) <= WORD / B.BLOCK_SIZE
  {
    hide Power;
    Powers();
    PowSum(59, 5);
    PowSum(59 - n, n);
    AddMultiple(a, Power(2, 59 - n), Power(2, n));
  }

  lemma OffsetOf(x: nat, num: nat)
    requires 0 - WORD < (x / B.BLOCK_SIZE - num) * B.BLOCK_SIZE < WORD
    ensures var d := x / B.BLOCK_SIZE - num;
            Word(BlockBase(Word(x)) - Word(num * B.BLOCK_SIZE)) / B.BLOCK_SIZE == if d >= 0 then d else WORD / B.BLOCK_SIZE + d
  {
    hide BlockBase;
    var k := x / B.BLOCK_SIZE;
    BlockBaseIs(x);
    WordDifference(k * B.BLOCK_SIZE, num * B.BLOCK_SIZE);
    assert k * B.BLOCK_SIZE - num * B.BLOCK_SIZE == (k - num) * B.BLOCK_SIZE;
    if k < num { OffsetBehind(num - k); }
  }

  /** For a block behind the tail, or ahead of it by less than the capacity, the unsigned division and
      the mask still give the slot that many places from the tail slot, in an index of any
      power-of-two capacity up to 2^59. */
  lemma SlotOfWrapped(x: nat, num: nat, h: B.Header, tail: nat, n: nat)
    requires n <= 59 && |h.index| == Power(2, n) && tail < |h.index|
    requires x / B.BLOCK_SIZE < num + |h.index| && (num - x / B.BLOCK_SIZE) * B.BLOCK_SIZE < WORD
    ensures Slot(Word(x), Word(num * B.BLOCK_SIZE), tail, |h.index|) == B.SlotFor(h, tail, num * B.BLOCK_SIZE, x / B.BLOCK_SIZE)
  {
    hide BlockBase, And, Power, Word;
    var d := x / B.BLOCK_SIZE - num;
    WholeRounds(tail + d, n);
    OffsetOf(x, num);
    MultipleDifference(x / B.BLOCK_SIZE, num);
    MaskedSum(tail, if d >= 0 then d else WORD / B.BLOCK_SIZE + d, n);
  }

  lemma MultipleDifference(k: nat, num: nat)
    ensures (k * B.BLOCK_SIZE - num * B.BLOCK_SIZE) / B.BLOCK_SIZE == k - num
  {
  }

  lemma MaskedSum(tail: nat, offset: nat, n: nat)
    requires tail + offset < WORD
    ensures And(Word(tail + offset), Power(2, n) - 1) == (tail + offset) % Power(2, n)
  {
    hide And, Power;
    LowBits(tail + offset, n);
  }
}
