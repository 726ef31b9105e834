/** The guaranteed logger's queue (Buffer, QueueBuffer): any number of writers fill buffers of slots,
and one of them, for each buffer, sets up the next; one reader empties them.

A transition system with one step per atomic access. Buffers are never freed here. */
module LogQueue {

  import opened Arithmetic
  import opened Collections

  type Tid = nat

  /** Stands for NanoLogLine, whose contents play no part. */
  datatype Line = Line(id: int)

  /** Buffer::size */
  const SIZE: nat := 32768

  /** `ready` is m_write_state up to its last element, which is `count`. */
  datatype Buffer = Buffer(slots: seq<Option<Line>>, ready: seq<bool>, count: nat)

  datatype WriterLabel =
    | WIdle
    | TakeIndex     // m_write_index.fetch_add
    | Spin          // no slot left: load m_write_index until there is
    | LoadBuffer    // load m_current_write_buffer
    | Construct     // put the line in its slot
    | MarkReady     // m_write_state[write_index].store(1)
    | AddCount      // m_write_state[size].fetch_add
    | StoreCurrent  // the buffer is full: new Buffer, m_current_write_buffer.store
    | WLock         // acquire m_flag
    | PushQueue     // m_buffers.push
    | ResetIndex    // m_write_index.store(0)
    | WUnlock

  /** Locals, and the ticket: which of all slots ever handed out this one is (auxiliary). */
  datatype Writer = Writer(at: WriterLabel, line: Line, index: nat, buffer: nat, ticket: nat)

  datatype ReaderLabel =
    | RIdle
    | RLock      // no buffer at hand: get_next_read_buffer
    | RFront     // front of m_buffers, if any
    | RUnlock
    | RTest      // load m_write_state[m_read_index]
    | RTake      // move the line out; m_read_index++
    | RPopLock   // that was the last one
    | RPop       // m_buffers.pop
    | RPopUnlock

  datatype Agent = TheWriter(t: Tid) | TheReader

  /** A slot handed out: to whom, for which line. */
  datatype Ticket = Ticket(t: Tid, line: Line)

  /** Shared memory first, then the reader's own. Auxiliary: the tickets in the order they were
      handed out; how often m_write_index was reset; how many buffers were popped; the tickets
      counted; the writer that sets up the next buffer; writers that came too late for a slot; the
      lines popped, and those given to each writer's push calls. */
  datatype State = State(
    buffers: seq<Buffer>, queue: seq<nat>, current: nat, writeIndex: nat, flag: bool, threads: seq<Writer>,
    reader: ReaderLabel, readBuffer: Option<nat>, readIndex: nat, got: Option<nat>, answer: bool,
    tickets: seq<Ticket>, resets: nat, pops: nat, counted: set<nat>, switcher: Option<Tid>, holder: Option<Agent>, late: set<Tid>,
    popped: seq<Line>, called: seq<seq<Line>>)

  datatype Action =
    | Push(t: Tid, line: Line)
    | Write(t: Tid)
    | TryPop
    | Read

  function NewBuffer(): Buffer {
    Buffer(seq(SIZE, _ => None), seq(SIZE, _ => false), 0)
  }

  predicate Enabled(s: State, a: Action) {
    match a
    case Push(t, _) => t < |s.threads| == |s.called| && s.threads[t].at.WIdle?
    case Write(t) => t < |s.threads| && !s.threads[t].at.WIdle? && (s.threads[t].at.WLock? ==> !s.flag)
    case TryPop => s.reader.RIdle?
    case Read => !s.reader.RIdle? && (s.reader.RLock? || s.reader.RPopLock? ==> !s.flag)
  }

  predicate BufferSafe(s: State, b: nat, i: nat) {
    b < |s.buffers| && i < |s.buffers[b].slots| == |s.buffers[b].ready|
  }

  /** Nothing the step touches is out of bounds, empty or null. */
  predicate Safe(s: State, a: Action) {
    match a
    case Push(_, _) => true
    case Write(t) =>
      t < |s.threads| && (var th := s.threads[t]; th.at.Construct? || th.at.MarkReady? || th.at.AddCount? ==> BufferSafe(s, th.buffer, th.index))
    case TryPop => true
    case Read =>
      && (s.reader.RTest? || s.reader.RTake? ==> s.readBuffer.Some? && BufferSafe(s, s.readBuffer.value, s.readIndex))
      && (s.reader.RTake? ==> s.buffers[s.readBuffer.value].slots[s.readIndex].Some?)
      && (s.reader.RPop? ==> s.queue != [])
  }

  function Goto(s: State, t: Tid, th: Writer): State
    requires t < |s.threads|
  {
    s.(threads := s.threads[t := th])
  }

  function SlotStep(s: State, t: Tid): State
    requires Safe(s, Write(t))
  {
    var th := s.threads[t];
    if th.at.TakeIndex? then
      if s.writeIndex < SIZE
      then Goto(s.(writeIndex := s.writeIndex + 1, tickets := s.tickets + [Ticket(t, th.line)]), t,
                Writer(LoadBuffer, th.line, s.writeIndex, 0, |s.tickets|))
      else Goto(s.(writeIndex := s.writeIndex + 1, late := s.late + {t}), t, th.(at := Spin))
    else if th.at.Spin? then if s.writeIndex < SIZE then Goto(s, t, th.(at := TakeIndex)) else s
    else if th.at.LoadBuffer? then Goto(s, t, th.(at := Construct, buffer := s.current))
    else s
  }

  function StoreStep(s: State, t: Tid): State
    requires Safe(s, Write(t))
  {
    var th := s.threads[t];
    if th.at.Construct? then
      var b := s.buffers[th.buffer];
      Goto(s.(buffers := s.buffers[th.buffer := b.(slots := b.slots[th.index := Some(th.line)])]), t, th.(at := MarkReady))
    else if th.at.MarkReady? then
      var b := s.buffers[th.buffer];
      Goto(s.(buffers := s.buffers[th.buffer := b.(ready := b.ready[th.index := true])]), t, th.(at := AddCount))
    else if th.at.AddCount? then
      var b := s.buffers[th.buffer];
      var last := b.count + 1 == SIZE;
      Goto(s.(buffers := s.buffers[th.buffer := b.(count := b.count + 1)], counted := s.counted + {th.ticket},
              switcher := if last then Some(t) else s.switcher),
           t, th.(at := if last then StoreCurrent else WIdle))
    else s
  }

  function SwitchStep(s: State, t: Tid): State
    requires t < |s.threads|
  {
    var th := s.threads[t];
    if th.at.StoreCurrent? then Goto(s.(buffers := s.buffers + [NewBuffer()], current := |s.buffers|), t, th.(at := WLock))
    else if th.at.WLock? then Goto(s.(flag := true, holder := Some(TheWriter(t))), t, th.(at := PushQueue))
    else if th.at.PushQueue? then Goto(s.(queue := s.queue + [s.current]), t, th.(at := ResetIndex))
    else if th.at.ResetIndex? then
      Goto(s.(writeIndex := 0, resets := s.resets + 1, switcher := None, late := {}), t, th.(at := WUnlock))
    else Goto(s.(flag := false, holder := None), t, th.(at := WIdle))
  }

  predicate Slotting(at: WriterLabel) {
    at.TakeIndex? || at.Spin? || at.LoadBuffer?
  }

  predicate Storing(at: WriterLabel) {
    at.Construct? || at.MarkReady? || at.AddCount?
  }

  function WriteStep(s: State, t: Tid): State
    requires Safe(s, Write(t))
  {
    var at := s.threads[t].at;
    if at.WIdle? then s
    else if Slotting(at) then SlotStep(s, t)
    else if Storing(at) then StoreStep(s, t)
    else SwitchStep(s, t)
  }

  /** The read buffer's slot at readIndex is emptied. */
  function TakeStep(s: State): State
    requires Safe(s, Read) && s.reader.RTake?
  {
    var n := s.readBuffer.value;
    var b := s.buffers[n];
    var s1 := s.(popped := s.popped + [b.slots[s.readIndex].value], buffers := s.buffers[n := b.(slots := b.slots[s.readIndex := None])]);
    if s.readIndex + 1 == SIZE then s1.(readIndex := 0, readBuffer := None, reader := RPopLock)
    else s1.(readIndex := s.readIndex + 1, reader := RIdle, answer := true)
  }

  function ReadStep(s: State): State
    requires Safe(s, Read)
  {
    match s.reader
    case RIdle => s
    case RLock => s.(flag := true, holder := Some(TheReader), reader := RFront)
    case RFront => s.(got := if s.queue == [] then None else Some(s.queue[0]), reader := RUnlock)
    case RUnlock =>
      var s1 := s.(flag := false, holder := None, readBuffer := s.got);
      if s.got.None? then s1.(reader := RIdle, answer := false) else s1.(reader := RTest)
    case RTest =>
      if s.buffers[s.readBuffer.value].ready[s.readIndex] then s.(reader := RTake) else s.(reader := RIdle, answer := false)
    case RTake => TakeStep(s)
    case RPopLock => s.(flag := true, holder := Some(TheReader), reader := RPop)
    case RPop => s.(queue := s.queue[1..], pops := s.pops + 1, reader := RPopUnlock)
    case RPopUnlock => s.(flag := false, holder := None, reader := RIdle, answer := true)
  }

  function Step(s: State, a: Action): State
    requires Enabled(s, a) && Safe(s, a)
  {
    match a
    case Push(t, line) => Goto(s.(called := s.called[t := s.called[t] + [line]]), t, Writer(TakeIndex, line, 0, 0, 0))
    case Write(t) => WriteStep(s, t)
    case TryPop => s.(reader := if s.readBuffer.None? then RLock else RTest)
    case Read => ReadStep(s)
  }

  /** After QueueBuffer's constructor, which sets up the first buffer. */
  predicate Init(s: State) {
    && s.buffers == [NewBuffer()] && s.queue == [0] && s.current == 0 && s.writeIndex == 0 && !s.flag
    && (forall t | 0 <= t < |s.threads| :: s.threads[t].at.WIdle?)
    && s.reader.RIdle? && s.readBuffer.None? && s.readIndex == 0 && s.tickets == [] && s.resets == 0 && s.pops == 0
    && s.counted == {} && s.switcher.None? && s.holder.None? && s.late == {} && s.popped == []
    && |s.called| == |s.threads| && forall t | 0 <= t < |s.called| :: s.called[t] == []
  }

  // ----- the invariant

  predicate Switching(at: WriterLabel) {
    at.StoreCurrent? || at.WLock? || at.PushQueue? || at.ResetIndex?
  }

  /** The writer holds a ticket that is not counted yet. */
  predicate Holds(th: Writer) {
    th.at.LoadBuffer? || Storing(th.at)
  }

  predicate Switches(s: State, at: WriterLabel) {
    s.switcher.Some? && s.switcher.value < |s.threads| && s.threads[s.switcher.value].at == at
  }

  /** The numbers of tickets, buffers and queue entries in terms of resets and pops. */
  predicate NumbersOk(s: State) {
    && |s.called| == |s.threads|
    && |s.tickets| == s.resets * SIZE + Min(s.writeIndex, SIZE)
    && |s.buffers| == s.current + 1
    && (s.switcher.Some? ==> s.switcher.value < |s.threads| && Switching(s.threads[s.switcher.value].at) && s.writeIndex >= SIZE)
    && s.current == s.resets + (if s.switcher.Some? && !Switches(s, StoreCurrent) then 1 else 0)
    && s.pops + |s.queue| == s.resets + 1 + (if Switches(s, ResetIndex) then 1 else 0)
    && (forall i | 0 <= i < |s.queue| :: s.queue[i] == s.pops + i)
    && (forall b | 0 <= b < |s.buffers| :: |s.buffers[b].slots| == |s.buffers[b].ready| == SIZE)
  }

  function CountedIn(counted: set<nat>, b: nat): set<nat> {
    set n | n in counted && n / SIZE == b
  }

  predicate AllCounted(counted: set<nat>, b: nat) {
    forall n | b * SIZE <= n < (b + 1) * SIZE :: n in counted
  }

  /** A buffer's count is that of its tickets that are finished with; one that is full and still
      current has a writer that sets up the next. */
  ghost predicate CountsOk(s: State) {
    && (forall b | 0 <= b < |s.buffers| :: s.buffers[b].count == |CountedIn(s.counted, b)|)
    && (forall n <- s.counted :: n < |s.tickets|)
    && (forall b: nat | b < s.resets :: AllCounted(s.counted, b))
    && (s.switcher.Some? <==> AllCounted(s.counted, s.resets))
  }

  predicate Ready(s: State, n: nat) {
    n / SIZE < |s.buffers| && |s.buffers[n / SIZE].ready| == SIZE && s.buffers[n / SIZE].ready[n % SIZE]
  }

  predicate Stored(s: State, n: nat, line: Line) {
    n / SIZE < |s.buffers| && |s.buffers[n / SIZE].slots| == SIZE && s.buffers[n / SIZE].slots[n % SIZE] == Some(line)
  }

  /** A slot is ready only once its ticket's line is in it, and stays so. */
  ghost predicate SlotsOk(s: State) {
    && (forall n: nat | Ready(s, n) :: n < |s.tickets| && (|s.popped| <= n ==> Stored(s, n, s.tickets[n].line)))
    && (forall n <- s.counted :: Ready(s, n))
  }

  ghost predicate WriterOk(s: State, t: Tid) {
    t < |s.threads| &&
    var th := s.threads[t];
    && (Switching(th.at) <==> s.switcher == Some(t))
    && (Holds(th) ==>
          && th.ticket < |s.tickets| && s.tickets[th.ticket] == Ticket(t, th.line) && th.ticket !in s.counted
          && th.ticket / SIZE == s.resets && th.index == th.ticket % SIZE)
    && (Storing(th.at) ==> th.buffer == s.resets)
    && (th.at.LoadBuffer? || th.at.Construct? || th.at.MarkReady? ==> !Ready(s, th.ticket))
    && (th.at.MarkReady? ==> Stored(s, th.ticket, th.line))
    && (th.at.AddCount? ==> Ready(s, th.ticket))
  }

  predicate Apart(a: Writer, b: Writer) {
    Holds(a) && Holds(b) ==> a.ticket != b.ticket
  }

  ghost predicate WritersOk(s: State) {
    && (forall t | 0 <= t < |s.threads| :: WriterOk(s, t))
    && (forall t, u | 0 <= t < |s.threads| && 0 <= u < |s.threads| && t != u :: Apart(s.threads[t], s.threads[u]))
  }

  ghost predicate CoverOk(s: State) {
    forall n: nat | n < |s.tickets| && n !in s.counted :: exists t | 0 <= t < |s.threads| :: Holds(s.threads[t]) && s.threads[t].ticket == n
  }

  /** The lines popped are those of the first tickets. */
  predicate PoppedOk(s: State) {
    && |s.popped| <= |s.tickets| && (forall n | 0 <= n < |s.popped| :: s.popped[n] == s.tickets[n].line)
  }

  /** Where the reader is. */
  predicate ReaderOk(s: State) {
    var popping := s.reader.RPopLock? || s.reader.RPop?;
    && s.readIndex < SIZE
    && |s.popped| == (s.pops + (if popping then 1 else 0)) * SIZE + s.readIndex
    && (s.readBuffer.Some? ==>
          && s.readBuffer.value == s.pops && s.queue != [] && !popping && !s.reader.RPopUnlock?
          && !s.reader.RLock? && !s.reader.RFront? && !s.reader.RUnlock?)
    && (s.readBuffer.None? ==> s.readIndex == 0 && !s.reader.RTest? && !s.reader.RTake?)
    && (s.reader.RUnlock? && s.got.Some? ==> s.got.value == s.pops && s.queue != [])
    && (s.reader.RTake? ==> Ready(s, |s.popped|))
    && (popping ==> s.queue != [])
  }

  predicate FlagOk(s: State) {
    && s.flag == s.holder.Some? && (s.flag && s.holder.value.TheWriter? ==> s.holder.value.t < |s.threads|)
    && (s.holder == Some(TheReader) <==> s.reader.RFront? || s.reader.RUnlock? || s.reader.RPop? || s.reader.RPopUnlock?)
    && (forall t | 0 <= t < |s.threads| ::
          s.holder == Some(TheWriter(t)) <==> s.threads[t].at.PushQueue? || s.threads[t].at.ResetIndex? || s.threads[t].at.WUnlock?)
  }

  /** m_write_index goes past the size by the writers that came too late for a slot, and they wait. */
  ghost predicate LateOk(s: State) {
    && (forall t <- s.late :: t < |s.threads| && s.threads[t].at.Spin?)
    && (if s.writeIndex <= SIZE then s.late == {} else s.writeIndex == SIZE + |s.late|)
  }

  /** The lines of the tickets handed to t. */
  function By(tickets: seq<Ticket>, t: Tid): seq<Line> {
    if tickets == [] then []
    else
      var last := tickets[|tickets| - 1];
      By(tickets[..|tickets| - 1], t) + if last.t == t then [last.line] else []
  }

  /** A writer's tickets are for its lines in the order of its calls. */
  ghost predicate CallsOk(s: State) {
    |s.called| == |s.threads| && forall t | 0 <= t < |s.threads| ::
      var th := s.threads[t];
      s.called[t] == By(s.tickets, t) + if th.at.TakeIndex? || th.at.Spin? then [th.line] else []
  }

  ghost predicate Inv(s: State) {
    && NumbersOk(s) && CountsOk(s) && SlotsOk(s) && WritersOk(s) && CoverOk(s) && PoppedOk(s) && ReaderOk(s) && FlagOk(s) && LateOk(s) && CallsOk(s)
  }

  // ----- frames

  /** Another writer's ticket is where it was. */
  predicate Undisturbed(s: State, s': State, th: Writer) {
    Holds(th) && th.ticket < |s.tickets| ==>
      && |s.tickets| <= |s'.tickets| && s'.tickets[th.ticket] == s.tickets[th.ticket]
      && (th.ticket in s'.counted <==> th.ticket in s.counted)
      && (Ready(s', th.ticket) <==> Ready(s, th.ticket))
      && (th.at.MarkReady? && Stored(s, th.ticket, th.line) ==> Stored(s', th.ticket, th.line))
      && s'.resets == s.resets
  }

  /** Only thread t moves. */
  predicate OnlyMoves(s: State, s': State, t: Tid) {
    t < |s.threads| == |s'.threads| && forall u | 0 <= u < |s.threads| && u != t :: s'.threads[u] == s.threads[u]
  }

  lemma OthersOk(s: State, s': State, t: Tid)
    requires WritersOk(s) && OnlyMoves(s, s', t)
    requires forall u | 0 <= u < |s.threads| && u != t :: Undisturbed(s, s', s.threads[u]) && (s'.switcher == Some(u) <==> s.switcher == Some(u))
    requires WriterOk(s', t)
    requires Holds(s'.threads[t]) ==> (Holds(s.threads[t]) && s'.threads[t].ticket == s.threads[t].ticket) || s'.threads[t].ticket >= |s.tickets|
    ensures WritersOk(s')
  {
    forall u | 0 <= u < |s'.threads| ensures WriterOk(s', u) && (u != t ==> Apart(s'.threads[u], s'.threads[t])) {
      assert WriterOk(s, u);
      if u != t { assert Apart(s.threads[u], s.threads[t]); }
    }
    hide WriterOk, Undisturbed;
  }

  /** Every uncounted ticket still has its holder. */
  lemma CoverStays(s: State, s': State, t: Tid)
    requires CoverOk(s) && OnlyMoves(s, s', t)
    requires s'.tickets == s.tickets || (|s'.tickets| == |s.tickets| + 1 && Holds(s'.threads[t]) && s'.threads[t].ticket == |s.tickets|)
    requires s.counted <= s'.counted
    requires Holds(s.threads[t]) ==> (Holds(s'.threads[t]) && s'.threads[t].ticket == s.threads[t].ticket) || s.threads[t].ticket in s'.counted
    ensures CoverOk(s')
  {
  }

  // ----- a writer's way to its slot

  lemma PushKeepsInv(s: State, t: Tid, line: Line)
    requires Inv(s) && Enabled(s, Push(t, line))
    ensures Inv(Step(s, Push(t, line)))
  {
    hide CountsOk, SlotsOk, PoppedOk, By;
    var s' := Step(s, Push(t, line));
    OthersOk(s, s', t);
    CoverStays(s, s', t);
    hide WritersOk, CoverOk;
    assert CountsOk(s') && SlotsOk(s') && PoppedOk(s') by { SameMemory(s, s'); }
  }

  lemma SameMemory(s: State, s': State)
    requires CountsOk(s) && SlotsOk(s) && PoppedOk(s)
    requires s'.buffers == s.buffers && s'.tickets == s.tickets && s'.resets == s.resets && s'.counted == s.counted
    requires s'.switcher == s.switcher && s'.popped == s.popped
    ensures CountsOk(s') && SlotsOk(s') && PoppedOk(s')
  {
    hide CountedIn, AllCounted;
    forall n: nat ensures Ready(s', n) == Ready(s, n) {}
    forall n: nat | n < |s.tickets| && Stored(s, n, s.tickets[n].line) ensures Stored(s', n, s.tickets[n].line) {}
  }

  lemma NextTicket(resets: nat, index: nat)
    requires index < SIZE
    ensures (resets * SIZE + index) / SIZE == resets && (resets * SIZE + index) % SIZE == index
  {
  }

  lemma SlotsStay(s: State, s': State)
    requires SlotsOk(s) && s'.buffers == s.buffers && s'.popped == s.popped && s'.counted == s.counted && s.tickets <= s'.tickets
    ensures SlotsOk(s')
  {
    forall n: nat | Ready(s', n) ensures n < |s'.tickets| && (|s'.popped| <= n ==> Stored(s', n, s'.tickets[n].line)) { assert Ready(s, n); }
    forall n <- s'.counted ensures Ready(s', n) { assert Ready(s, n); }
  }

  lemma TicketNumbers(s: State, t: Tid)
    requires Inv(s) && t < |s.threads| && s.threads[t].at.TakeIndex? && s.writeIndex < SIZE
    ensures var s' := SlotStep(s, t); NumbersOk(s') && CountsOk(s') && SlotsOk(s') && PoppedOk(s') && ReaderOk(s') && FlagOk(s') && LateOk(s')
  {
    hide WritersOk, CoverOk, CallsOk, SlotsOk;
    SlotsStay(s, SlotStep(s, t));
  }

  lemma TicketWriters(s: State, t: Tid)
    requires Inv(s) && t < |s.threads| && s.threads[t].at.TakeIndex? && s.writeIndex < SIZE
    ensures var s' := SlotStep(s, t); WritersOk(s') && CoverOk(s')
  {
    hide CallsOk, PoppedOk, ReaderOk, FlagOk, LateOk;
    var s' := SlotStep(s, t);
    NextTicket(s.resets, s.writeIndex);
    assert WriterOk(s, t);
    assert !Ready(s, |s.tickets|);
    assert |s.tickets| !in s.counted;
    hide CountsOk, SlotsOk;
    OthersOk(s, s', t);
    CoverStays(s, s', t);
  }

  lemma TicketCalls(s: State, t: Tid)
    requires CallsOk(s) && t < |s.threads| && s.threads[t].at.TakeIndex? && s.writeIndex < SIZE
    ensures CallsOk(SlotStep(s, t))
  {
  }

  lemma TicketKeepsInv(s: State, t: Tid)
    requires Inv(s) && t < |s.threads| && s.threads[t].at.TakeIndex? && s.writeIndex < SIZE
    ensures Inv(SlotStep(s, t))
  {
    TicketNumbers(s, t);
    TicketWriters(s, t);
    TicketCalls(s, t);
  }

  /** A writer too late for a slot, one that waits, and one that loads the buffer. */
  lemma SlotlessKeepsInv(s: State, t: Tid)
    requires Inv(s) && t < |s.threads| && Slotting(s.threads[t].at) && !(s.threads[t].at.TakeIndex? && s.writeIndex < SIZE)
    ensures Inv(SlotStep(s, t))
  {
    hide CountsOk, SlotsOk, PoppedOk, LateOk, WritersOk, CoverOk, NumbersOk, ReaderOk, FlagOk, CallsOk;
    SlotlessLate(s, t);
    SlotlessNumbers(s, t);
    SlotlessRest(s, t);
    SlotlessWriters(s, t);
    SameMemory(s, SlotStep(s, t));
  }

  lemma SlotlessNumbers(s: State, t: Tid)
    requires NumbersOk(s) && t < |s.threads| && Slotting(s.threads[t].at) && !(s.threads[t].at.TakeIndex? && s.writeIndex < SIZE)
    ensures NumbersOk(SlotStep(s, t))
  {
  }

  lemma SlotlessRest(s: State, t: Tid)
    requires ReaderOk(s) && FlagOk(s) && CallsOk(s)
    requires t < |s.threads| && Slotting(s.threads[t].at) && !(s.threads[t].at.TakeIndex? && s.writeIndex < SIZE)
    ensures ReaderOk(SlotStep(s, t)) && FlagOk(SlotStep(s, t)) && CallsOk(SlotStep(s, t))
  {
    hide By;
  }

  /** A buffer with a ticket still out has nobody setting up the next one. */
  lemma NotSwitching(s: State, t: Tid)
    requires CountsOk(s) && NumbersOk(s) && WriterOk(s, t) && Holds(s.threads[t])
    ensures s.switcher.None? && s.current == s.resets
  {
  }

  lemma SlotlessWriters(s: State, t: Tid)
    requires Inv(s) && t < |s.threads| && Slotting(s.threads[t].at) && !(s.threads[t].at.TakeIndex? && s.writeIndex < SIZE)
    ensures WritersOk(SlotStep(s, t)) && CoverOk(SlotStep(s, t))
  {
    hide CountsOk, SlotsOk, PoppedOk, CallsOk, LateOk, FlagOk, ReaderOk, NumbersOk;
    var s' := SlotStep(s, t);
    assert WriterOk(s, t);
    if Holds(s.threads[t]) { NotSwitching(s, t); }
    SlotlessWriter(s, t);
    OthersOk(s, s', t);
    CoverStays(s, s', t);
  }

  lemma SlotlessWriter(s: State, t: Tid)
    requires NumbersOk(s) && WriterOk(s, t) && Slotting(s.threads[t].at) && !(s.threads[t].at.TakeIndex? && s.writeIndex < SIZE)
    requires s.threads[t].at.LoadBuffer? ==> s.current == s.resets
    ensures WriterOk(SlotStep(s, t), t)
  {
  }

  lemma SlotlessLate(s: State, t: Tid)
    requires LateOk(s) && t < |s.threads| && Slotting(s.threads[t].at) && !(s.threads[t].at.TakeIndex? && s.writeIndex < SIZE)
    ensures LateOk(SlotStep(s, t))
  {
  }

  // ----- a writer at its slot

  lemma SameTicket(m: nat, n: nat)
    ensures m == n <==> m / SIZE == n / SIZE && m % SIZE == n % SIZE
  {
  }

  lemma StoreSafe(s: State, t: Tid)
    requires NumbersOk(s) && CountsOk(s) && t < |s.threads| && WriterOk(s, t) && Storing(s.threads[t].at)
    ensures Safe(s, Write(t)) && s.switcher.None? && s.threads[t].buffer == s.threads[t].ticket / SIZE == s.resets
  {
  }

  /** What a step at a slot does to the slots. */
  ghost predicate StoresOnly(s: State, s': State, th: Writer) {
    && (forall m: nat :: Ready(s', m) <==> (Ready(s, m) || (th.at.MarkReady? && m == th.ticket)))
    && (forall m: nat, line :: m != th.ticket ==> (Stored(s', m, line) <==> Stored(s, m, line)))
    && (th.at.Construct? ==> Stored(s', th.ticket, th.line))
    && (!th.at.Construct? ==> forall line :: Stored(s', th.ticket, line) <==> Stored(s, th.ticket, line))
  }

  lemma StoresOneSlot(s: State, t: Tid)
    requires NumbersOk(s) && Safe(s, Write(t)) && WriterOk(s, t) && Storing(s.threads[t].at) && s.threads[t].buffer == s.threads[t].ticket / SIZE
    ensures StoresOnly(s, StoreStep(s, t), s.threads[t])
  {
    hide CountsOk, CoverOk, SlotsOk;
    var s', th := StoreStep(s, t), s.threads[t];
    forall m: nat ensures Ready(s', m) <==> (Ready(s, m) || (th.at.MarkReady? && m == th.ticket)) { SameTicket(m, th.ticket); }
    forall m: nat, line | m != th.ticket ensures Stored(s', m, line) <==> Stored(s, m, line) { SameTicket(m, th.ticket); }
  }

  lemma StoreSlots(s: State, s': State, th: Writer)
    requires SlotsOk(s) && StoresOnly(s, s', th) && s'.tickets == s.tickets && s'.popped == s.popped
    requires th.ticket < |s.tickets| && s.tickets[th.ticket].line == th.line
    requires th.at.Construct? ==> !Ready(s, th.ticket)
    requires th.at.MarkReady? ==> Stored(s, th.ticket, th.line)
    requires s'.counted == s.counted + (if th.at.AddCount? then {th.ticket} else {}) && (th.at.AddCount? ==> Ready(s, th.ticket))
    ensures SlotsOk(s')
  {
  }

  lemma StoreWriters(s: State, t: Tid)
    requires NumbersOk(s) && CountsOk(s) && WritersOk(s) && t < |s.threads| && Storing(s.threads[t].at) && Safe(s, Write(t))
    requires s.switcher.None? && StoresOnly(s, StoreStep(s, t), s.threads[t])
    ensures WritersOk(StoreStep(s, t))
  {
    hide CountsOk, CoverOk, SlotsOk, Ready, Stored;
    var s' := StoreStep(s, t);
    assert WriterOk(s, t);
    forall u | 0 <= u < |s.threads| && u != t ensures Undisturbed(s, s', s.threads[u]) && (s'.switcher == Some(u) <==> s.switcher == Some(u)) {
      assert Apart(s.threads[u], s.threads[t]);
    }
    OthersOk(s, s', t);
  }

  lemma CountedSize(counted: set<nat>, b: nat)
    ensures |CountedIn(counted, b)| <= SIZE
    ensures |CountedIn(counted, b)| == SIZE <==> AllCounted(counted, b)
  {
    var all := Range(b * SIZE, (b + 1) * SIZE);
    assert CountedIn(counted, b) <= all;
    SubsetSize(CountedIn(counted, b), all);
    if AllCounted(counted, b) {
      assert CountedIn(counted, b) == all;
    } else {
      var x :| b * SIZE <= x < (b + 1) * SIZE && x !in counted;
      SubsetSize(CountedIn(counted, b), all - {x});
    }
  }

  lemma OneMoreCounted(counted: set<nat>, n: nat)
    requires n !in counted
    ensures |CountedIn(counted + {n}, n / SIZE)| == |CountedIn(counted, n / SIZE)| + 1
    ensures forall b: nat | b != n / SIZE :: CountedIn(counted + {n}, b) == CountedIn(counted, b)
  {
    assert CountedIn(counted + {n}, n / SIZE) == CountedIn(counted, n / SIZE) + {n};
  }

  /** The last to be counted finds the buffer full. */
  lemma AddCounts(s: State, t: Tid)
    requires NumbersOk(s) && CountsOk(s) && t < |s.threads| && WriterOk(s, t) && s.threads[t].at.AddCount? && Safe(s, Write(t))
    ensures CountsOk(StoreStep(s, t))
    ensures StoreStep(s, t).switcher.Some? ==> s.writeIndex >= SIZE
  {
    var s', n := StoreStep(s, t), s.threads[t].ticket;
    StoreSafe(s, t);
    OneMoreCounted(s.counted, n);
    CountedSize(s'.counted, s.resets);
    hide CountedIn;
    forall b: nat | b < s.resets ensures AllCounted(s'.counted, b) { assert AllCounted(s.counted, b); }
    if AllCounted(s'.counted, s.resets) { assert (s.resets + 1) * SIZE - 1 in s'.counted; }
  }

  lemma StoreCounts(s: State, t: Tid)
    requires NumbersOk(s) && CountsOk(s) && t < |s.threads| && WriterOk(s, t) && Storing(s.threads[t].at) && Safe(s, Write(t))
    ensures CountsOk(StoreStep(s, t)) && NumbersOk(StoreStep(s, t))
  {
    if s.threads[t].at.AddCount? { AddCounts(s, t); }
    StoreSafe(s, t);
    hide CountedIn, AllCounted, Ready, Stored;
  }

  lemma StoreReader(s: State, t: Tid)
    requires ReaderOk(s) && t < |s.threads| && Storing(s.threads[t].at) && Safe(s, Write(t)) && StoresOnly(s, StoreStep(s, t), s.threads[t])
    ensures ReaderOk(StoreStep(s, t))
  {
    hide Ready, Stored;
  }

  lemma StoreRest(s: State, t: Tid)
    requires FlagOk(s) && LateOk(s) && CallsOk(s) && t < |s.threads| && Storing(s.threads[t].at) && Safe(s, Write(t))
    ensures var s' := StoreStep(s, t); FlagOk(s') && LateOk(s') && CallsOk(s')
  {
    hide By;
  }

  lemma StoreKeepsInv(s: State, t: Tid)
    requires Inv(s) && t < |s.threads| && Storing(s.threads[t].at)
    ensures Safe(s, Write(t)) && Inv(StoreStep(s, t))
  {
    hide NumbersOk, CountsOk, SlotsOk, CoverOk, ReaderOk, FlagOk, LateOk, CallsOk, StoresOnly, Ready, Stored;
    assert WriterOk(s, t);
    StoreSafe(s, t);
    StoresOneSlot(s, t);
    StoreSlots(s, StoreStep(s, t), s.threads[t]);
    StoreWriters(s, t);
    StoreCounts(s, t);
    StoreReader(s, t);
    StoreRest(s, t);
    CoverStays(s, StoreStep(s, t), t);
  }

  // ----- the switch to the next buffer

  /** Ready and Stored do not see new buffers, which are empty. */
  lemma BufferAdded(s: State, s': State)
    requires s'.buffers == s.buffers + [NewBuffer()]
    ensures forall n: nat :: Ready(s', n) <==> Ready(s, n)
    ensures forall n: nat, line :: Stored(s', n, line) <==> Stored(s, n, line)
  {
  }

  lemma SwitchNumbers(s: State, t: Tid)
    requires NumbersOk(s) && WriterOk(s, t) && Switching(s.threads[t].at)
    ensures NumbersOk(SwitchStep(s, t))
  {
  }

  lemma StoreCurrentCounts(s: State, t: Tid)
    requires NumbersOk(s) && CountsOk(s) && SlotsOk(s) && WriterOk(s, t) && s.threads[t].at.StoreCurrent?
    ensures CountsOk(SwitchStep(s, t)) && SlotsOk(SwitchStep(s, t))
  {
  }

  lemma ResetCounts(s: State, t: Tid)
    requires NumbersOk(s) && CountsOk(s) && SlotsOk(s) && WriterOk(s, t) && s.threads[t].at.ResetIndex?
    ensures CountsOk(SwitchStep(s, t)) && SlotsOk(SwitchStep(s, t))
    ensures |s.tickets| == (s.resets + 1) * SIZE && forall n: nat | n < |s.tickets| :: n in s.counted
  {
    var s' := SwitchStep(s, t);
    forall n: nat | n < |s.tickets| ensures n in s.counted {
      var b := n / SIZE;
      assert AllCounted(s.counted, b) && b * SIZE <= n < (b + 1) * SIZE;
    }
    SlotsStay(s, s');
    hide Ready, Stored, CountedIn, SlotsOk;
    assert (s.resets + 1) * SIZE !in s.counted;
    assert !AllCounted(s.counted, s.resets + 1);
  }

  lemma SwitchCounts(s: State, t: Tid)
    requires NumbersOk(s) && CountsOk(s) && SlotsOk(s) && WriterOk(s, t) && (Switching(s.threads[t].at) || s.threads[t].at.WUnlock?)
    ensures CountsOk(SwitchStep(s, t)) && SlotsOk(SwitchStep(s, t))
  {
    if s.threads[t].at.StoreCurrent? { StoreCurrentCounts(s, t); }
    else if s.threads[t].at.ResetIndex? { ResetCounts(s, t); }
    else {
      hide CountsOk, NumbersOk;
      SlotsStay(s, SwitchStep(s, t));
      CountsStay(s, SwitchStep(s, t));
    }
  }

  lemma CountsStay(s: State, s': State)
    requires CountsOk(s) && s'.buffers == s.buffers && s'.counted == s.counted && s'.tickets == s.tickets
    requires s'.resets == s.resets && s'.switcher == s.switcher
    ensures CountsOk(s')
  {
  }

  lemma SwitchWriters(s: State, t: Tid)
    requires NumbersOk(s) && CountsOk(s) && SlotsOk(s) && WritersOk(s) && t < |s.threads| && (Switching(s.threads[t].at) || s.threads[t].at.WUnlock?)
    ensures WritersOk(SwitchStep(s, t))
  {
    var s' := SwitchStep(s, t);
    assert WriterOk(s, t);
    if s.threads[t].at.StoreCurrent? { BufferAdded(s, s'); }
    if s.threads[t].at.ResetIndex? { ResetCounts(s, t); }
    hide Ready, Stored, NumbersOk, CountsOk, SlotsOk;
    forall u | 0 <= u < |s.threads| && u != t ensures Undisturbed(s, s', s.threads[u]) && (s'.switcher == Some(u) <==> s.switcher == Some(u)) {
      assert WriterOk(s, u);
    }
    OthersOk(s, s', t);
  }

  lemma SwitchReader(s: State, t: Tid)
    requires ReaderOk(s) && t < |s.threads| && (Switching(s.threads[t].at) || s.threads[t].at.WUnlock?)
    ensures ReaderOk(SwitchStep(s, t))
  {
    hide Ready;
    if s.threads[t].at.StoreCurrent? { BufferAdded(s, SwitchStep(s, t)); } else { ReadySame(s, SwitchStep(s, t)); }
  }

  lemma SwitchRest(s: State, t: Tid)
    requires FlagOk(s) && LateOk(s) && CallsOk(s) && t < |s.threads| && (Switching(s.threads[t].at) || s.threads[t].at.WUnlock?)
    requires s.threads[t].at.WLock? ==> !s.flag
    ensures var s' := SwitchStep(s, t); FlagOk(s') && LateOk(s') && CallsOk(s')
  {
    hide By;
  }

  lemma UnlockNumbers(s: State, t: Tid)
    requires NumbersOk(s) && WriterOk(s, t) && s.threads[t].at.WUnlock?
    ensures NumbersOk(SwitchStep(s, t))
  {
  }

  lemma SwitchKeepsInv(s: State, t: Tid)
    requires Inv(s) && t < |s.threads| && (Switching(s.threads[t].at) || s.threads[t].at.WUnlock?) && (s.threads[t].at.WLock? ==> !s.flag)
    ensures Inv(SwitchStep(s, t))
  {
    hide NumbersOk, CountsOk, SlotsOk, CoverOk, ReaderOk, FlagOk, LateOk, CallsOk, Ready, Stored;
    assert WriterOk(s, t);
    if Switching(s.threads[t].at) { SwitchNumbers(s, t); } else { UnlockNumbers(s, t); }
    SwitchCounts(s, t);
    SwitchWriters(s, t);
    SwitchReader(s, t);
    SwitchRest(s, t);
    CoverStays(s, SwitchStep(s, t), t);
  }

  // ----- the reader

  /** Where the reader's buffer is, and what is in it. */
  lemma ReaderSafe(s: State)
    requires Inv(s) && !s.reader.RIdle?
    ensures Safe(s, Read)
    ensures s.readBuffer.Some? && s.reader.RTake? ==>
              |s.popped| < |s.tickets| && s.buffers[s.readBuffer.value].slots[s.readIndex] == Some(s.tickets[|s.popped|].line)
    ensures s.reader.RTest? ==>
              (s.buffers[s.readBuffer.value].ready[s.readIndex] <==> Ready(s, |s.popped|))
  {
    hide CountsOk, WritersOk, CoverOk, FlagOk, LateOk, CallsOk;
    if s.reader.RTest? || s.reader.RTake? {
      NextTicket(s.pops, s.readIndex);
      assert s.queue[|s.queue| - 1] == s.pops + |s.queue| - 1;
    }
    assert Ready(s, |s.popped|) ==> |s.popped| < |s.tickets|;
  }

  predicate Looking(s: State) {
    !s.reader.RIdle? && !s.reader.RTake? && (s.reader.RLock? || s.reader.RPopLock? ==> !s.flag) && Safe(s, Read)
  }

  lemma PopNumbers(s: State)
    requires NumbersOk(s) && s.reader.RPop? && Safe(s, Read)
    ensures NumbersOk(ReadStep(s))
  {
  }

  lemma NumbersStay(s: State, s': State)
    requires NumbersOk(s) && ReadsOnly(s, s') && s'.queue == s.queue && s'.pops == s.pops && s'.current == s.current
    ensures NumbersOk(s')
  {
  }

  lemma LookingNumbers(s: State)
    requires NumbersOk(s) && Looking(s)
    ensures NumbersOk(ReadStep(s))
  {
    hide NumbersOk;
    if s.reader.RPop? { PopNumbers(s); } else { NumbersStay(s, ReadStep(s)); }
  }

  lemma LookingReader(s: State)
    requires NumbersOk(s) && ReaderOk(s) && Looking(s)
    requires s.reader.RTest? ==> (s.buffers[s.readBuffer.value].ready[s.readIndex] <==> Ready(s, |s.popped|))
    ensures ReaderOk(ReadStep(s))
  {
    hide Ready;
    ReadySame(s, ReadStep(s));
  }

  lemma ReadySame(s: State, s': State)
    ensures s'.buffers == s.buffers ==> forall n: nat :: Ready(s', n) <==> Ready(s, n)
  {
  }

  /** A step that changes neither slots, tickets nor writers. */
  predicate ReadsOnly(s: State, s': State) {
    && s'.buffers == s.buffers && s'.tickets == s.tickets && s'.counted == s.counted && s'.threads == s.threads
    && s'.resets == s.resets && s'.switcher == s.switcher && s'.popped == s.popped
    && s'.writeIndex == s.writeIndex && s'.late == s.late && s'.called == s.called
  }

  lemma LookingIsReading(s: State)
    requires Looking(s)
    ensures ReadsOnly(s, ReadStep(s))
  {
  }

  lemma LookingFlag(s: State)
    requires FlagOk(s) && ReaderOk(s) && Looking(s)
    ensures FlagOk(ReadStep(s))
  {
  }

  lemma WritersStay(s: State, s': State)
    requires ReadsOnly(s, s') && WritersOk(s) && CoverOk(s)
    ensures WritersOk(s') && CoverOk(s')
  {
    forall t | 0 <= t < |s'.threads| ensures WriterOk(s', t) { assert WriterOk(s, t); }
  }

  lemma ReadingRest(s: State, s': State)
    requires ReadsOnly(s, s') && PoppedOk(s) && LateOk(s) && CallsOk(s)
    ensures PoppedOk(s') && LateOk(s') && CallsOk(s')
  {
  }

  /** Reading without taking. */
  lemma LookingKeepsInv(s: State)
    requires Inv(s) && !s.reader.RIdle? && !s.reader.RTake? && (s.reader.RLock? || s.reader.RPopLock? ==> !s.flag)
    ensures Safe(s, Read) && Inv(ReadStep(s))
  {
    hide SlotsOk, CountsOk, WritersOk, CoverOk, NumbersOk, ReaderOk, FlagOk, LateOk, CallsOk, PoppedOk, Ready, Stored, Safe, ReadStep, ReadsOnly;
    ReaderSafe(s);
    var s' := ReadStep(s);
    LookingNumbers(s);
    LookingReader(s);
    LookingIsReading(s);
    LookingFlag(s);
    ReadsWhat(s, s');
    SlotsStay(s, s');
    CountsStay(s, s');
    WritersStay(s, s');
    ReadingRest(s, s');
  }

  lemma ReadsWhat(s: State, s': State)
    requires ReadsOnly(s, s')
    ensures s'.buffers == s.buffers && s'.popped == s.popped && s'.counted == s.counted && s'.tickets == s.tickets
    ensures s'.resets == s.resets && s'.switcher == s.switcher
  {
  }

  /** Only the slot of ticket n changes: it is emptied. */
  ghost predicate EmptiesOnly(s: State, s': State, n: nat) {
    && (forall m: nat :: Ready(s', m) <==> Ready(s, m))
    && (forall m: nat, line :: m != n ==> (Stored(s', m, line) <==> Stored(s, m, line)))
  }

  lemma TakeEmpties(s: State)
    requires NumbersOk(s) && ReaderOk(s) && s.reader.RTake? && Safe(s, Read)
    ensures EmptiesOnly(s, TakeStep(s), |s.popped|)
  {
    var s', n := TakeStep(s), |s.popped|;
    NextTicket(s.pops, s.readIndex);
    forall m: nat ensures Ready(s', m) <==> Ready(s, m) { SameTicket(m, n); }
    forall m: nat, line | m != n ensures Stored(s', m, line) <==> Stored(s, m, line) { SameTicket(m, n); }
  }

  lemma TakeSlots(s: State)
    requires SlotsOk(s) && PoppedOk(s) && s.reader.RTake? && Safe(s, Read) && EmptiesOnly(s, TakeStep(s), |s.popped|)
    requires |s.popped| < |s.tickets| && s.buffers[s.readBuffer.value].slots[s.readIndex] == Some(s.tickets[|s.popped|].line)
    ensures SlotsOk(TakeStep(s)) && PoppedOk(TakeStep(s))
  {
    hide Ready, Stored;
    var s' := TakeStep(s);
    forall n: nat | Ready(s', n) ensures n < |s'.tickets| && (|s'.popped| <= n ==> Stored(s', n, s'.tickets[n].line)) { assert Ready(s, n); }
  }

  lemma TakeWriters(s: State)
    requires WritersOk(s) && CoverOk(s) && s.reader.RTake? && Safe(s, Read) && EmptiesOnly(s, TakeStep(s), |s.popped|) && Ready(s, |s.popped|)
    ensures WritersOk(TakeStep(s)) && CoverOk(TakeStep(s))
  {
    hide Ready, Stored;
    var s' := TakeStep(s);
    forall t | 0 <= t < |s'.threads| ensures WriterOk(s', t) { assert WriterOk(s, t); }
  }

  lemma TakeNumbers(s: State)
    requires NumbersOk(s) && ReaderOk(s) && s.reader.RTake? && Safe(s, Read)
    ensures NumbersOk(TakeStep(s)) && ReaderOk(TakeStep(s))
  {
    hide Ready, Stored;
  }

  lemma TakeRest(s: State)
    requires CountsOk(s) && FlagOk(s) && LateOk(s) && CallsOk(s) && s.reader.RTake? && Safe(s, Read)
    ensures var s' := TakeStep(s); CountsOk(s') && FlagOk(s') && LateOk(s') && CallsOk(s')
  {
    hide By, CountedIn, AllCounted, Ready, Stored;
  }

  lemma TakeKeepsInv(s: State)
    requires Inv(s) && s.reader.RTake?
    ensures Safe(s, Read) && Inv(TakeStep(s))
  {
    ReaderSafe(s);
    hide SlotsOk, CountsOk, WritersOk, CoverOk, NumbersOk, FlagOk, LateOk, CallsOk, Ready, Stored, TakeStep, EmptiesOnly;
    TakeEmpties(s);
    TakeSlots(s);
    TakeWriters(s);
    TakeNumbers(s);
    TakeRest(s);
  }

  lemma TryPopKeepsInv(s: State)
    requires Inv(s) && s.reader.RIdle?
    ensures Inv(Step(s, TryPop))
  {
    hide SlotsOk, CountsOk, WritersOk, CoverOk, PoppedOk, LateOk, CallsOk, Ready;
    var s' := Step(s, TryPop);
    SlotsStay(s, s');
    CountsStay(s, s');
    WritersStay(s, s');
    ReadingRest(s, s');
  }

  // ----- all steps, and whole runs

  /** No step goes wrong, and every step keeps the invariant. */
  lemma StepKeepsInv(s: State, a: Action)
    requires Inv(s) && Enabled(s, a)
    ensures Safe(s, a) && Inv(Step(s, a))
  {
    hide Inv, SlotStep, StoreStep, SwitchStep, TakeStep;
    match a
    case Push(t, line) => PushKeepsInv(s, t, line);
    case Write(t) =>
      var at := s.threads[t].at;
      if Slotting(at) { if at.TakeIndex? && s.writeIndex < SIZE { TicketKeepsInv(s, t); } else { SlotlessKeepsInv(s, t); } }
      else if Storing(at) { StoreKeepsInv(s, t); }
      else { SwitchKeepsInv(s, t); }
    case TryPop => TryPopKeepsInv(s);
    case Read => if s.reader.RTake? { TakeKeepsInv(s); } else { LookingKeepsInv(s); }
  }

  lemma InitHasInv(s: State)
    requires Init(s)
    ensures Inv(s)
  {
    assert CountedIn(s.counted, 0) == {};
    assert !AllCounted(s.counted, 0) by { assert 0 !in s.counted; }
    forall t | 0 <= t < |s.threads| ensures WriterOk(s, t) {}
  }

  /** The state after a schedule; an action that is not enabled when its turn comes is skipped. */
  function Run(s: State, schedule: seq<Action>): State {
    if schedule == [] then s
    else
      var before := Run(s, schedule[..|schedule| - 1]);
      var a := schedule[|schedule| - 1];
      if Enabled(before, a) && Safe(before, a) then Step(before, a) else before
  }

  lemma {:induction false} RunKeepsInv(s: State, schedule: seq<Action>)
    requires Inv(s)
    ensures Inv(Run(s, schedule))
  {
    hide Inv, Enabled, Safe, Step;
    if schedule != [] {
      RunKeepsInv(s, schedule[..|schedule| - 1]);
      var before := Run(s, schedule[..|schedule| - 1]);
      var a := schedule[|schedule| - 1];
      if Enabled(before, a) { StepKeepsInv(before, a); }
    }
  }

  lemma Reached(s0: State, schedule: seq<Action>) returns (s: State)
    requires Init(s0)
    ensures s == Run(s0, schedule) && Inv(s)
  {
    hide Init, Inv, Run;
    InitHasInv(s0);
    RunKeepsInv(s0, schedule);
    s := Run(s0, schedule);
  }

  // ----- the main properties

  function Lines(tickets: seq<Ticket>): (r: seq<Line>)
    ensures |r| == |tickets| && forall n | 0 <= n < |r| :: r[n] == tickets[n].line
  {
    seq(|tickets|, n requires 0 <= n < |tickets| => tickets[n].line)
  }

  lemma {:induction false} ByPrefix(tickets: seq<Ticket>, n: nat, t: Tid)
    requires n <= |tickets|
    ensures By(tickets[..n], t) <= By(tickets, t)
  {
    if n < |tickets| {
      ByPrefix(tickets[..|tickets| - 1], n, t);
      assert tickets[..|tickets| - 1][..n] == tickets[..n];
    } else {
      assert tickets[..n] == tickets;
    }
  }

  /** Each line is popped at most once, in the order in which the slots were handed out, buffer by
      buffer and slot by slot; and what is popped of one writer's lines are the first it pushed, in
      the order of its calls. */
  lemma PoppedOnceInOrder(s0: State, schedule: seq<Action>, t: Tid)
    requires Init(s0) && t < |s0.threads| && t < |Run(s0, schedule).called|
    ensures var s := Run(s0, schedule);
            && |s.popped| <= |s.tickets| && s.popped == Lines(s.tickets[..|s.popped|])
            && By(s.tickets[..|s.popped|], t) <= s.called[t]
  {
    var s := Reached(s0, schedule);
    hide CountsOk, SlotsOk, WritersOk, CoverOk, ReaderOk, FlagOk, LateOk, By;
    ByPrefix(s.tickets, |s.popped|, t);
  }

  /** A writer that was handed a slot puts its line into that slot of that very buffer, and no other
      writer has the same one. */
  lemma EveryWriterItsSlot(s0: State, schedule: seq<Action>, t: Tid)
    requires Init(s0) && t < |Run(s0, schedule).threads| && Holds(Run(s0, schedule).threads[t])
    ensures var s := Run(s0, schedule);
            var th := s.threads[t];
            && th.ticket < |s.tickets| && s.tickets[th.ticket] == Ticket(t, th.line) && th.index == th.ticket % SIZE
            && (if th.at.LoadBuffer? then s.current == th.ticket / SIZE else th.buffer == th.ticket / SIZE)
            && forall u | 0 <= u < |s.threads| && u != t && Holds(s.threads[u]) :: s.threads[u].ticket != th.ticket
  {
    var s := Reached(s0, schedule);
    hide SlotsOk, CoverOk, ReaderOk, FlagOk, LateOk, CallsOk, Run;
    assert WriterOk(s, t);
    NotSwitching(s, t);
    forall u | 0 <= u < |s.threads| && u != t && Holds(s.threads[u]) ensures s.threads[u].ticket != s.threads[t].ticket {
      assert Apart(s.threads[u], s.threads[t]);
    }
  }

  /** Exactly one writer sets up the next buffer: it does so as soon as every slot of the current one
      is filled, and no sooner, and nobody else does. */
  lemma OneWriterSwitches(s0: State, schedule: seq<Action>)
    requires Init(s0)
    ensures var s := Run(s0, schedule);
            && (AllCounted(s.counted, s.resets) <==> exists t :: 0 <= t < |s.threads| && Switching(s.threads[t].at))
            && (forall t, u | 0 <= t < |s.threads| && 0 <= u < |s.threads| && Switching(s.threads[t].at) && Switching(s.threads[u].at) :: t == u)
  {
    var s := Reached(s0, schedule);
    hide SlotsOk, CoverOk, ReaderOk, FlagOk, LateOk, CallsOk, Run, AllCounted;
    forall t | 0 <= t < |s.threads| ensures Switching(s.threads[t].at) <==> s.switcher == Some(t) { assert WriterOk(s, t); }
  }

  /** m_write_index stays near the size: it cannot wrap around. */
  lemma IndexStaysSmall(s0: State, schedule: seq<Action>)
    requires Init(s0)
    ensures Run(s0, schedule).writeIndex <= SIZE + |Run(s0, schedule).threads|
  {
    var s := Reached(s0, schedule);
    hide SlotsOk, CoverOk, ReaderOk, FlagOk, CountsOk, WritersOk, CallsOk, Run;
    assert s.late <= Range(0, |s.threads|);
    SubsetSize(s.late, Range(0, |s.threads|));
  }

  // ----- draining at shutdown

  predicate WritersIdle(s: State) {
    forall t | 0 <= t < |s.threads| :: s.threads[t].at.WIdle?
  }

  lemma IdleAllReady(s: State, n: nat)
    requires Inv(s) && WritersIdle(s) && n < |s.tickets|
    ensures Ready(s, n)
  {
  }

  lemma IdleHasBuffer(s: State)
    requires Inv(s) && WritersIdle(s)
    ensures s.switcher.None? && (s.flag ==> s.holder == Some(TheReader))
    ensures s.reader.RLock? || s.reader.RFront? || s.reader.RUnlock? ==> s.queue != []
  {
    hide CoverOk, LateOk, CallsOk, SlotsOk;
    if s.flag && s.holder.value.TheWriter? { HolderIs(s); }
    if s.queue == [] { EmptyMeansFull(s); }
  }

  lemma HolderIs(s: State)
    requires FlagOk(s) && s.flag && s.holder.value.TheWriter?
    ensures var t := s.holder.value.t; t < |s.threads| && !s.threads[t].at.WIdle?
  {
  }

  /** With no buffer queued the reader has emptied them all, so the last one is full. */
  lemma EmptyMeansFull(s: State)
    requires NumbersOk(s) && ReaderOk(s) && PoppedOk(s) && WritersIdle(s) && CoverOk(s) && s.queue == [] && s.switcher.None?
    ensures AllCounted(s.counted, s.resets)
  {
  }

  /** How many steps the reader still takes, at most, before its call returns. */
  function StepsLeft(reader: ReaderLabel): nat {
    match reader
    case RLock => 8
    case RFront => 7
    case RUnlock => 6
    case RTest => 5
    case RTake => 4
    case RPopLock => 3
    case RPop => 2
    case RPopUnlock => 1
    case RIdle => 0
  }

  /** s is on the way from s0 of one undisturbed try_pop. */
  ghost predicate Popping(s0: State, s: State) {
    && s.threads == s0.threads && s.tickets == s0.tickets && s.called == s0.called && s0.popped <= s.popped
    && (s.reader.RUnlock? ==> s.got.Some?)
    && |s.popped| == |s0.popped| + (if s.reader.RPopLock? || s.reader.RPop? || s.reader.RPopUnlock? || (s.reader.RIdle? && s.answer) then 1 else 0)
    && (s.reader.RIdle? && !s.answer ==> |s.popped| == |s.tickets|)
  }

  lemma PoppingGoesOn(s0: State, s: State)
    requires Inv(s) && WritersIdle(s) && Popping(s0, s) && !s.reader.RIdle?
    ensures Enabled(s, Read) && Safe(s, Read)
    ensures var s' := ReadStep(s); Inv(s') && WritersIdle(s') && Popping(s0, s') && StepsLeft(s'.reader) < StepsLeft(s.reader)
  {
    hide Inv, Ready, Stored, Safe;
    IdleHasBuffer(s);
    ReaderHolds(s);
    StepKeepsInv(s, Read);
    ReaderSafe(s);
    if |s.popped| < |s.tickets| { IdleAllReady(s, |s.popped|); }
    PoppedFit(s);
    ReadMoves(s0, s);
  }

  lemma ReadMoves(s0: State, s: State)
    requires Popping(s0, s) && !s.reader.RIdle? && Safe(s, Read)
    requires s.reader.RFront? ==> s.queue != []
    requires s.reader.RTest? && !s.buffers[s.readBuffer.value].ready[s.readIndex] ==> |s.popped| == |s.tickets|
    ensures var s' := ReadStep(s); s'.threads == s.threads && Popping(s0, s') && StepsLeft(s'.reader) < StepsLeft(s.reader)
  {
  }

  lemma PoppedFit(s: State)
    requires Inv(s)
    ensures |s.popped| <= |s.tickets|
  {
  }

  /** Before it takes the lock the reader does not hold it. */
  lemma ReaderHolds(s: State)
    requires Inv(s)
    ensures s.holder == Some(TheReader) ==> !s.reader.RLock? && !s.reader.RPopLock? && !s.reader.RIdle?
  {
  }

  /** Up to n steps of the reader. */
  function Reads(s: State, n: nat): State
    decreases n
  {
    if n == 0 || s.reader.RIdle? || !(Enabled(s, Read) && Safe(s, Read)) then s else Reads(ReadStep(s), n - 1)
  }

  lemma {:induction false} ReadsToTheEnd(s0: State, s: State, n: nat)
    requires Inv(s) && WritersIdle(s) && Popping(s0, s) && StepsLeft(s.reader) <= n
    ensures var s' := Reads(s, n); Inv(s') && WritersIdle(s') && Popping(s0, s') && s'.reader.RIdle?
    decreases n
  {
    hide Inv, Safe, ReadStep, Popping;
    if !s.reader.RIdle? {
      PoppingGoesOn(s0, s);
      ReadsToTheEnd(s0, ReadStep(s), n - 1);
    }
  }

  /** QueueBuffer::try_pop, undisturbed. */
  function TryPopAlone(s: State): State
    requires s.reader.RIdle?
  {
    Reads(Step(s, TryPop), 8)
  }

  lemma PopsOneOrAll(s: State)
    requires Inv(s) && WritersIdle(s) && s.reader.RIdle?
    ensures var s' := TryPopAlone(s); Inv(s') && WritersIdle(s') && s'.reader.RIdle? && Popping(s, s')
  {
    TryPopKeepsInv(s);
    hide Inv, Reads;
    ReadsToTheEnd(s, Step(s, TryPop), 8);
  }

  /** The loop of NanoLogger::pop after shutdown. If all pushes are complete by then, everything that
      was pushed and not yet written is written, in order, and nothing else. */
  method Drain(s: State) returns (s': State, written: seq<Line>)
    requires Inv(s) && WritersIdle(s) && s.reader.RIdle?
    ensures Inv(s') && s'.popped == Lines(s.tickets) && s.popped + written == s'.popped
    ensures |s.called| == |s.threads| && forall t | 0 <= t < |s.threads| :: By(s.tickets, t) == s.called[t]
  {
    hide Inv, TryPopAlone;
    written := [];
    CallsComplete(s);
    PopsOneOrAll(s);
    PoppedFit(TryPopAlone(s));
    s' := TryPopAlone(s);
    while s'.answer
      invariant Inv(s') && WritersIdle(s') && s'.reader.RIdle? && s'.tickets == s.tickets && |s'.popped| <= |s'.tickets|
      invariant s.popped + written == s'.popped[..|s'.popped| - if s'.answer then 1 else 0] && (s'.answer ==> s'.popped != [])
      invariant !s'.answer ==> |s'.popped| == |s'.tickets|
      decreases |s.tickets| - |s'.popped|, s'.answer
    {
      written := written + [s'.popped[|s'.popped| - 1]];
      PopsOneOrAll(s');
      PoppedFit(TryPopAlone(s'));
      s' := TryPopAlone(s');
    }
    PoppedAre(s');
  }

  /** With no push in progress every line pushed has its slot. */
  lemma CallsComplete(s: State)
    requires Inv(s) && WritersIdle(s)
    ensures |s.called| == |s.threads| && forall t | 0 <= t < |s.threads| :: By(s.tickets, t) == s.called[t]
  {
    hide NumbersOk, CountsOk, SlotsOk, WritersOk, CoverOk, PoppedOk, ReaderOk, FlagOk, LateOk;
  }

  lemma PoppedAre(s: State)
    requires Inv(s) && |s.popped| == |s.tickets|
    ensures s.popped == Lines(s.tickets)
  {
  }

  // ----- a push that nobody disturbs

  /** The other writers have no call in progress, and the reader does not hold the lock. */
  predicate LeftAlone(s: State, t: Tid) {
    && t < |s.threads| && (forall u | 0 <= u < |s.threads| && u != t :: s.threads[u].at.WIdle?)
    && s.holder != Some(TheReader)
  }

  /** The writer has no slot yet for its line. */
  predicate Waiting(th: Writer) {
    th.at.TakeIndex? || th.at.Spin?
  }

  /** With all slots handed out somebody is setting up the next buffer; so a writer that is alone and
      without a slot finds one free, be it spinning or not. */
  lemma AloneHasRoom(s: State, t: Tid)
    requires Inv(s) && LeftAlone(s, t) && Waiting(s.threads[t])
    ensures s.writeIndex < SIZE
  {
    FullHasSwitcher(s, t);
    hide SlotsOk, ReaderOk, FlagOk, LateOk, CallsOk, PoppedOk, CountsOk, CoverOk, WritersOk;
  }

  lemma FullHasSwitcher(s: State, t: Tid)
    requires Inv(s) && LeftAlone(s, t) && !Holds(s.threads[t])
    ensures s.writeIndex >= SIZE ==> s.switcher.Some?
  {
    hide SlotsOk, ReaderOk, FlagOk, LateOk, CallsOk, PoppedOk;
    if s.writeIndex >= SIZE {
      assert AllCounted(s.counted, s.resets);
    }
  }

  /** ... and the lock, when it comes to that. */
  lemma AloneLocks(s: State, t: Tid)
    requires Inv(s) && LeftAlone(s, t) && s.threads[t].at.WLock?
    ensures !s.flag
  {
    hide SlotsOk, ReaderOk, NumbersOk, CountsOk, WritersOk, CoverOk, LateOk, CallsOk, PoppedOk;
    if s.flag { HolderIs(s); }
  }

  function WritesLeft(at: WriterLabel): nat {
    match at
    case Spin => 11
    case TakeIndex => 10
    case LoadBuffer => 9
    case Construct => 8
    case MarkReady => 7
    case AddCount => 6
    case StoreCurrent => 5
    case WLock => 4
    case PushQueue => 3
    case ResetIndex => 2
    case WUnlock => 1
    case WIdle => 0
  }

  /** s is on the way from s0 of t's push: its line has its ticket as soon as it has a slot. */
  ghost predicate Pushing(s0: State, s: State, t: Tid) {
    && t < |s.threads| == |s0.threads| && s.threads[t].line == s0.threads[t].line
    && s.called == s0.called && s.popped == s0.popped && s.reader == s0.reader
    && s.tickets == s0.tickets + (if Waiting(s0.threads[t]) && !Waiting(s.threads[t]) then [Ticket(t, s0.threads[t].line)] else [])
    && (Waiting(s.threads[t]) ==> Waiting(s0.threads[t]))
  }

  /** What a step of t keeps of all this. */
  ghost predicate Onward(s0: State, s: State, s': State, t: Tid) {
    && t < |s.threads| && LeftAlone(s', t) && Pushing(s0, s', t) && WritesLeft(s'.threads[t].at) < WritesLeft(s.threads[t].at)
  }

  lemma SlotMoves(s0: State, s: State, t: Tid)
    requires LeftAlone(s, t) && Pushing(s0, s, t) && Slotting(s.threads[t].at) && Safe(s, Write(t))
    requires Waiting(s.threads[t]) ==> s.writeIndex < SIZE
    ensures Onward(s0, s, SlotStep(s, t), t)
  {
    hide Safe;
  }

  lemma StoreMoves(s0: State, s: State, t: Tid)
    requires LeftAlone(s, t) && Pushing(s0, s, t) && Storing(s.threads[t].at) && Safe(s, Write(t))
    ensures Onward(s0, s, StoreStep(s, t), t)
  {
  }

  lemma SwitchMoves(s0: State, s: State, t: Tid)
    requires LeftAlone(s, t) && Pushing(s0, s, t)
    requires var at := s.threads[t].at; Switching(at) || at.WUnlock?
    ensures Onward(s0, s, SwitchStep(s, t), t)
  {
    hide NewBuffer;
  }

  lemma WriteGoesOn(s0: State, s: State, t: Tid)
    requires Inv(s) && LeftAlone(s, t) && Pushing(s0, s, t) && !s.threads[t].at.WIdle?
    ensures Enabled(s, Write(t)) && Safe(s, Write(t))
    ensures var s' := WriteStep(s, t);
            Inv(s') && Onward(s0, s, s', t)
  {
    hide Inv, Safe, SlotStep, StoreStep, SwitchStep, Pushing, Onward;
    if Waiting(s.threads[t]) { AloneHasRoom(s, t); }
    if s.threads[t].at.WLock? { AloneLocks(s, t); }
    StepKeepsInv(s, Write(t));
    var at := s.threads[t].at;
    if Slotting(at) { SlotMoves(s0, s, t); }
    else if Storing(at) { StoreMoves(s0, s, t); }
    else { SwitchMoves(s0, s, t); }
  }

  /** Up to n steps of writer t. */
  function Writes(s: State, t: Tid, n: nat): State
    decreases n
  {
    if n == 0 || t >= |s.threads| || s.threads[t].at.WIdle? || !(Enabled(s, Write(t)) && Safe(s, Write(t))) then s
    else Writes(WriteStep(s, t), t, n - 1)
  }

  lemma {:induction false} WritesToTheEnd(s0: State, s: State, t: Tid, n: nat)
    requires Inv(s) && LeftAlone(s, t) && Pushing(s0, s, t) && WritesLeft(s.threads[t].at) <= n
    ensures var s' := Writes(s, t, n); Inv(s') && LeftAlone(s', t) && Pushing(s0, s', t) && s'.threads[t].at.WIdle?
    decreases n
  {
    hide Inv, Safe, WriteStep, Pushing;
    if !s.threads[t].at.WIdle? {
      WriteGoesOn(s0, s, t);
      WritesToTheEnd(s0, WriteStep(s, t), t, n - 1);
    }
  }

  /** A push left alone anywhere in its course, in particular one that came too late for a slot and
      spins, is through in eleven steps: its line has its ticket, the next one if it had none, and
      what has a ticket and has not been popped is ready in its slot. */
  lemma PushEnds(s: State, t: Tid)
    requires Inv(s) && LeftAlone(s, t)
    ensures var s' := Writes(s, t, 11);
            && Inv(s') && WritersIdle(s') && s'.called == s.called && s'.popped == s.popped
            && s'.tickets == s.tickets + (if Waiting(s.threads[t]) then [Ticket(t, s.threads[t].line)] else [])
            && (forall n | 0 <= n < |s'.tickets| :: Ready(s', n) && (|s.popped| <= n ==> Stored(s', n, s'.tickets[n].line)))
  {
    hide Inv, Writes, Ready, Stored;
    WritesToTheEnd(s, s, t, 11);
    var s' := Writes(s, t, 11);
    forall n | 0 <= n < |s'.tickets| ensures Ready(s', n) && (|s'.popped| <= n ==> Stored(s', n, s'.tickets[n].line)) {
      IdleAllReady(s', n);
      ReadyIsStored(s', n);
    }
  }

  lemma ReadyIsStored(s: State, n: nat)
    requires Inv(s) && Ready(s, n)
    ensures n < |s.tickets| && (|s.popped| <= n ==> Stored(s, n, s.tickets[n].line))
  {
    hide NumbersOk, CountsOk, WritersOk, CoverOk, PoppedOk, ReaderOk, FlagOk, LateOk, CallsOk;
  }

  /** So does one from its call on. */
  lemma PushAlone(s: State, t: Tid, line: Line)
    requires Inv(s) && WritersIdle(s) && s.holder != Some(TheReader) && Enabled(s, Push(t, line))
    ensures var s' := Writes(Step(s, Push(t, line)), t, 10);
            && Inv(s') && WritersIdle(s') && s'.tickets == s.tickets + [Ticket(t, line)] && s'.popped == s.popped
            && Ready(s', |s.tickets|) && Stored(s', |s.tickets|, line)
  {
    StepKeepsInv(s, Push(t, line));
    var s1 := Step(s, Push(t, line));
    hide Inv, Writes, Ready, Stored;
    WritesToTheEnd(s1, s1, t, 10);
    var s' := Writes(s1, t, 10);
    IdleAllReady(s', |s.tickets|);
    ReadyIsStored(s', |s.tickets|);
    PoppedFit(s);
  }
}
