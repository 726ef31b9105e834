/** A whole implicit producer: the ticket protocol that claims indices (Tickets) on top of the
storage that holds the elements (SubQueue), and what its callers see of the two together: one
FIFO queue. */
module ProducerQueue {

  import opened Collections

  import T = Tickets
  import S = SubQueue
  import B = BlockIndex
  import O = BlockOwnership

  type Tid = nat
  type Metric = S.Metric

  /** Thread t of the one part is thread t of the other; the tail and the head are shared. */
  datatype State = State(tickets: T.State, store: S.State)

  datatype Action =
    | Enqueue(items: seq<Metric>)
    | Produce(memory: bool, got: Option<B.Bid>)
    | Dequeue(t: Tid, max: nat)
    | Draw(t: Tid)     // the next step of the ticket protocol
    | Consume(t: Tid)  // the next step of fetching what was claimed
    | Others(blocks: seq<S.Block>, free: set<B.Bid>)

  predicate Enabled(s: State, a: Action) {
    match a
    case Enqueue(items) => S.Enabled(s.store, S.Enqueue(items))
    case Produce(memory, got) => S.Enabled(s.store, S.Produce(memory, got))
    case Dequeue(t, max) => T.Enabled(s.tickets, T.CallDequeue(t, max)) && t < |s.store.threads| && s.store.threads[t].at == S.CIdle
    case Draw(t) => T.Enabled(s.tickets, T.Advance(t)) && t < |s.store.threads|
    case Consume(t) => S.Enabled(s.store, S.Consume(t))
    case Others(blocks, free) => S.Enabled(s.store, S.Others(blocks, free))
  }

  predicate Claims(s: State, t: Tid) {
    t < |s.tickets.threads| && s.tickets.threads[t].at.ClaimHead?
  }

  /** Nothing crashes: no access out of bounds or to null, no claim beyond the tail. */
  predicate Safe(s: State, a: Action) {
    match a
    case Produce(memory, got) => S.Safe(s.store, S.Produce(memory, got))
    case Consume(t) => S.Safe(s.store, S.Consume(t))
    case Draw(t) => Claims(s, t) ==> S.Enabled(s.store, S.Claim(t, s.tickets.threads[t].actual))
    case _ => true
  }

  /** Storing tailIndex and the fetch_add of headIndex are steps of both parts. */
  function Step(s: State, a: Action): State
    requires Enabled(s, a) && Safe(s, a)
  {
    match a
    case Enqueue(items) => s.(store := S.Step(s.store, S.Enqueue(items)))
    case Produce(memory, got) =>
      var store := S.Step(s.store, S.Produce(memory, got));
      var added := if store.tailIndex > s.store.tailIndex then store.tailIndex - s.store.tailIndex else 0;
      State(T.Step(s.tickets, T.Enqueue(added)), store)
    case Dequeue(t, max) => s.(tickets := T.Step(s.tickets, T.CallDequeue(t, max)))
    case Draw(t) =>
      State(T.Step(s.tickets, T.Advance(t)),
            if Claims(s, t) then S.Step(s.store, S.Claim(t, s.tickets.threads[t].actual)) else s.store)
    case Consume(t) => s.(store := S.Step(s.store, S.Consume(t)))
    case Others(blocks, free) => s.(store := S.Step(s.store, S.Others(blocks, free)))
  }

  ghost predicate Inv(s: State) {
    && T.Inv(s.tickets) && S.Inv(s.store) && O.OwnersTrue(s.store)
    && s.tickets.tailIndex == s.store.tailIndex && s.tickets.headIndex == s.store.headIndex
    && |s.tickets.threads| == |s.store.threads|
    && (forall t | 0 <= t < |s.tickets.threads| && !s.tickets.threads[t].at.Idle? :: s.store.threads[t].at == S.CIdle)
  }

  ghost predicate Init(s: State) {
    && T.Init(s.tickets)
    && s.store.tailIndex == 0 && s.store.headIndex == 0
    && |s.store.threads| == |s.tickets.threads|
    && S.Init(s.store)
  }

  // ----- every step keeps the invariant

  /** What the producer leaves alone while it does not write elements. */
  ghost predicate Invisible(s: S.State, s': S.State) {
    && s'.headIndex == s.headIndex && s'.threads == s.threads && s'.log == s.log && s'.delivered == s.delivered
    && s'.cleared == s.cleared && s'.counted == s.counted
    && s'.tailIndex == s.tailIndex && s'.enqueued == s.enqueued && s'.tailBlock == s.tailBlock && s'.home == s.home
  }

  lemma AcquiringInvisible(s: S.State, memory: bool, got: Option<B.Bid>)
    requires S.ProducerSafe(s) && (got.Some? ==> got.value < |s.owner|)
    ensures Invisible(s, S.PlanStep(s, memory)) && Invisible(s, S.AcquireStep(s, got))
  {
  }

  lemma UndoingInvisible(s: S.State)
    requires S.ProducerSafe(s)
    ensures Invisible(s, S.InsertStep(s)) && Invisible(s, S.UndoStep(s))
  {
  }

  lemma ProducerLeaves(s: S.State, memory: bool, got: Option<B.Bid>)
    requires S.ProducerSafe(s) && (got.Some? ==> got.value < |s.owner|)
    ensures !s.producer.at.PWrite? ==> Invisible(s, S.ProducerStep(s, memory, got))
    ensures var s' := S.ProducerStep(s, memory, got);
            && s'.headIndex == s.headIndex && s'.threads == s.threads && s'.log == s.log && s'.delivered == s.delivered
            && s'.tailIndex >= s.tailIndex && s'.cleared == s.cleared && s'.counted == s.counted
  {
    AcquiringInvisible(s, memory, got);
    UndoingInvisible(s);
  }

  lemma ConsumerLeaves(s: S.State, t: Tid)
    requires t < |s.threads| && S.ConsumerSafe(s, s.threads[t])
    ensures var s' := S.ConsumerStep(s, t);
            && s'.headIndex == s.headIndex && s'.tailIndex == s.tailIndex && s'.enqueued == s.enqueued
            && |s'.threads| == |s.threads| && (forall u | 0 <= u < |s.threads| && u != t :: s'.threads[u] == s.threads[u])
            && s'.producer == s.producer && s'.answer == s.answer && s'.home == s.home && s'.tailBlock == s.tailBlock
  {
  }

  /** A consumer whose ticket was accepted claims only indices below the tail. */
  lemma AcceptedTicketClaims(s: State, t: Tid)
    requires Inv(s) && Enabled(s, Draw(t)) && Claims(s, t)
    ensures S.Enabled(s.store, S.Claim(t, s.tickets.threads[t].actual))
  {
    T.ClaimFits(s.tickets, t);
    assert T.ThreadOk(s.tickets, s.tickets.threads[t]);
  }

  lemma DrawKeepsInv(s: State, t: Tid)
    requires Inv(s) && Enabled(s, Draw(t))
    ensures Safe(s, Draw(t)) && Inv(Step(s, Draw(t)))
  {
    hide S.Inv, T.Inv, O.OwnersTrue, S.ConsumerSafe, S.ProducerSafe;
    T.StepKeepsInv(s.tickets, T.Advance(t));
    if Claims(s, t) {
      AcceptedTicketClaims(s, t);
      S.StepKeepsInv(s.store, S.Claim(t, s.tickets.threads[t].actual));
      O.StepKeepsOwners(s.store, S.Claim(t, s.tickets.threads[t].actual));
    }
  }

  lemma ProduceKeepsInv(s: State, memory: bool, got: Option<B.Bid>)
    requires Inv(s) && Enabled(s, Produce(memory, got))
    ensures Safe(s, Produce(memory, got)) && Inv(Step(s, Produce(memory, got)))
  {
    hide S.Inv, T.Inv, O.OwnersTrue, S.ConsumerSafe, S.ProducerSafe;
    S.StepKeepsInv(s.store, S.Produce(memory, got));
    O.StepKeepsOwners(s.store, S.Produce(memory, got));
    ProducerLeaves(s.store, memory, got);
    var added := S.Step(s.store, S.Produce(memory, got)).tailIndex - s.store.tailIndex;
    T.StepKeepsInv(s.tickets, T.Enqueue(added));
  }

  lemma ConsumeKeepsInv(s: State, t: Tid)
    requires Inv(s) && Enabled(s, Consume(t))
    ensures Safe(s, Consume(t)) && Inv(Step(s, Consume(t)))
  {
    hide S.Inv, T.Inv, O.OwnersTrue, S.ConsumerSafe, S.ProducerSafe, S.ConsumerStep;
    S.StepKeepsInv(s.store, S.Consume(t));
    O.StepKeepsOwners(s.store, S.Consume(t));
    ConsumerLeaves(s.store, t);
  }

  lemma StepKeepsInv(s: State, a: Action)
    requires Inv(s) && Enabled(s, a)
    ensures Safe(s, a) && Inv(Step(s, a))
  {
    hide S.Inv, T.Inv, O.OwnersTrue, S.ConsumerSafe, S.ProducerSafe, S.ConsumerStep, S.ProducerStep;
    match a
    case Enqueue(items) =>
      S.StepKeepsInv(s.store, S.Enqueue(items));
      O.StepKeepsOwners(s.store, S.Enqueue(items));
    case Produce(memory, got) => ProduceKeepsInv(s, memory, got);
    case Dequeue(t, max) => T.StepKeepsInv(s.tickets, T.CallDequeue(t, max));
    case Draw(t) => DrawKeepsInv(s, t);
    case Consume(t) => ConsumeKeepsInv(s, t);
    case Others(blocks, free) =>
      S.StepKeepsInv(s.store, S.Others(blocks, free));
      O.StepKeepsOwners(s.store, S.Others(blocks, free));
  }

  // ----- one FIFO queue

  /** The elements nobody has claimed yet, in the order they will be. */
  function Contents(s: State): seq<Metric> {
    if s.store.headIndex <= s.store.tailIndex <= |s.store.enqueued|
    then s.store.enqueued[s.store.headIndex..s.store.tailIndex] else []
  }

  /** The producer's next step stores tailIndex. */
  predicate Publishes(s: State, a: Action) {
    a.Produce? && s.store.producer.at == S.PWrite && s.store.producer.written >= |s.store.producer.items|
  }

  lemma WritingHides(s: S.State)
    requires S.ProducerSafe(s) && s.producer.at.PWrite? && s.producer.written < |s.producer.items|
    ensures Invisible(s, S.WriteStep(s))
  {
  }

  /** How far a step moves the two ends of the queue. */
  lemma StepMoves(s: State, a: Action)
    requires Inv(s) && Enabled(s, a) && Safe(s, a)
    ensures var s' := Step(s, a);
            && s'.store.enqueued == s.store.enqueued + (if Publishes(s, a) then s.store.producer.items else [])
            && s'.store.headIndex == s.store.headIndex + (if a.Draw? && Claims(s, a.t) then s.tickets.threads[a.t].actual else 0)
  {
    hide T.Inv, S.Inv, O.OwnersTrue, S.ConsumerSafe, S.ConsumerStep, S.ProducerSafe, S.ProducerStep;
    if a.Produce? {
      ProducerChanges(s.store, a.memory, a.got);
    } else if a.Consume? {
      ConsumerLeaves(s.store, a.t);
    }
  }

  /** Every step is, to the queue's callers, one of three: all elements of a call appended at once,
      a claim's elements taken from the front, or nothing. In particular a failing enqueue is
      never seen. */
  lemma StepRefines(s: State, a: Action)
    requires Inv(s) && Enabled(s, a)
    ensures Safe(s, a)
    ensures var before, after := Contents(s), Contents(Step(s, a));
            if Publishes(s, a) then after == before + s.store.producer.items
            else if a.Draw? && Claims(s, a.t) then
              var count := s.tickets.threads[a.t].actual;
              0 < count <= |before| && after == before[count..]
            else after == before
  {
    hide S.Inv, T.Inv, O.OwnersTrue, S.ConsumerSafe, S.ProducerSafe, S.ConsumerStep, S.ProducerStep, T.AdvanceStep, Contents;
    StepKeepsInv(s, a);
    StepMoves(s, a);
    ContentsFit(s);
    ContentsFit(Step(s, a));
    if a.Draw? && Claims(s, a.t) { AcceptedTicketClaims(s, a.t); }
    EndsMove(s, Step(s, a), if Publishes(s, a) then s.store.producer.items else [],
             if a.Draw? && Claims(s, a.t) then s.tickets.threads[a.t].actual else 0);
  }

  lemma EndsMove(s: State, s': State, more: seq<Metric>, count: nat)
    requires s.store.headIndex <= s.store.tailIndex == |s.store.enqueued| && s'.store.enqueued == s.store.enqueued + more
    requires s'.store.headIndex == s.store.headIndex + count <= s.store.tailIndex <= s'.store.tailIndex == |s'.store.enqueued|
    ensures |Contents(s)| == s.store.tailIndex - s.store.headIndex
    ensures count == 0 ==> Contents(s') == Contents(s) + more
    ensures more == [] ==> Contents(s') == Contents(s)[count..]
    ensures count == 0 && more == [] ==> Contents(s') == Contents(s)
  {
    var all, more' := s.store.enqueued, s'.store.enqueued;
    assert Contents(s) == all[s.store.headIndex..] && Contents(s') == more'[s.store.headIndex + count..];
    if count == 0 {
      assert more'[s.store.headIndex..] == all[s.store.headIndex..] + more;
    }
    if more == [] {
      assert more' == all;
      assert all[s.store.headIndex + count..] == all[s.store.headIndex..][count..];
    }
  }

  lemma ContentsFit(s: State)
    requires Inv(s)
    ensures s.store.headIndex <= s.store.tailIndex == |s.store.enqueued|
  {
  }

  lemma ProducerChanges(s: S.State, memory: bool, got: Option<B.Bid>)
    requires S.Inv(s) && S.Enabled(s, S.Produce(memory, got))
    ensures S.ProducerSafe(s)
    ensures var s' := S.ProducerStep(s, memory, got);
            && s'.headIndex == s.headIndex
            && if s.producer.at.PWrite? && s.producer.written >= |s.producer.items|
               then s'.enqueued == s.enqueued + s.producer.items && s'.tailIndex == s.tailIndex + |s.producer.items|
               else s'.enqueued == s.enqueued && s'.tailIndex == s.tailIndex
  {
    S.StepKeepsInv(s, S.Produce(memory, got));
    ProducerLeaves(s, memory, got);
    if s.producer.at.PWrite? && s.producer.written < |s.producer.items| { WritingHides(s); }
  }

  // ----- whole runs

  /** The state after a schedule; an action that is not enabled when its turn comes is skipped. */
  function Run(s: State, schedule: seq<Action>): State {
    if schedule == [] then s
    else
      var before := Run(s, schedule[..|schedule| - 1]);
      var a := schedule[|schedule| - 1];
      if Enabled(before, a) && Safe(before, a) then Step(before, a) else before
  }

  lemma InitHasInv(s: State)
    requires Init(s)
    ensures Inv(s)
  {
    S.InitHasInv(s.store);
    T.RunKeepsInv(s.tickets, []);
  }

  lemma {:induction false} RunKeepsInv(s: State, schedule: seq<Action>)
    requires Inv(s)
    ensures Inv(Run(s, schedule))
  {
    hide Inv, Enabled, Safe, Step;
    if schedule != [] {
      RunKeepsInv(s, schedule[..|schedule| - 1]);
      var before := Run(s, schedule[..|schedule| - 1]);
      var a := schedule[|schedule| - 1];
      if Enabled(before, a) { StepKeepsInv(before, a); }
    }
  }

  /** In no interleaving does any thread trip over an assertion, dereference null or index out of
      bounds, or claim an index at or past the tail. */
  lemma NeverCrashes(s0: State, schedule: seq<Action>, a: Action)
    requires Init(s0) && Enabled(Run(s0, schedule), a)
    ensures Safe(Run(s0, schedule), a)
  {
    hide Inv, Enabled, Safe, Step, Init;
    InitHasInv(s0);
    RunKeepsInv(s0, schedule);
    StepKeepsInv(Run(s0, schedule), a);
  }

  /** A consumer has claimed index x and not yet moved its element out. */
  predicate InHand(s: S.State, t: Tid, x: nat) {
    t < |s.threads| && S.Active(s.threads[t]) && s.threads[t].i <= x < s.threads[t].end
  }

  predicate Delivered(s: S.State, x: nat) {
    exists d :: 0 <= d < |s.log| && s.log[d].index == x
  }

  lemma InHandClaimed(s: S.State, t: Tid, x: nat)
    requires S.Inv(s) && InHand(s, t, x)
    ensures x < s.headIndex && x !in s.delivered && S.Working(s.threads[t], x)
  {
    hide S.MemoryOk, S.CoverOk, S.ProducerOk, S.LookupOk, S.ProducerIndexOk;
    assert S.ThreadOk(s, t);
  }

  lemma OneHand(s: S.State, t: Tid, u: Tid, x: nat)
    requires S.Inv(s) && InHand(s, t, x) && InHand(s, u, x)
    ensures t == u
  {
    InHandClaimed(s, t, x);
    InHandClaimed(s, u, x);
    hide S.MemoryOk, S.CoverOk, S.ProducerOk, S.ThreadOk, S.ProducerIndexOk;
  }

  lemma ClaimedInHand(s: S.State, x: nat)
    requires S.Inv(s) && x < s.headIndex && x !in s.delivered
    ensures exists t :: InHand(s, t, x)
  {
    hide S.ProducerOk, S.ProducerIndexOk, S.LookupOk, B.IndexOk, S.ValuesOk, S.OwnOk, S.CountsOk, S.ContentsOk;
    var t :| 0 <= t < |s.threads| && S.Working(s.threads[t], x);
    assert S.ThreadOk(s, t);
    assert InHand(s, t, x);
  }

  lemma DeliveredMeans(s: S.State, x: nat)
    requires S.Inv(s)
    ensures x in s.delivered <==> Delivered(s, x)
    ensures x in s.delivered ==> x < s.headIndex
  {
  }

  /** Nothing is lost or handed out twice: every index enqueued is still in the queue, in the hand
      of exactly one consumer, or delivered, and only one of these. */
  lemma EveryElementAccounted(s0: State, schedule: seq<Action>, x: nat)
    requires Init(s0) && x < |Run(s0, schedule).store.enqueued|
    ensures var s := Run(s0, schedule).store;
            && (s.headIndex <= x || Delivered(s, x) || exists t :: InHand(s, t, x))
            && !(s.headIndex <= x && Delivered(s, x))
            && (forall t | InHand(s, t, x) :: x < s.headIndex && !Delivered(s, x))
            && (forall t, u | InHand(s, t, x) && InHand(s, u, x) :: t == u)
  {
    hide Init, Inv, S.Inv, InHand, Delivered;
    var s := Reached(s0, schedule);
    DeliveredMeans(s, x);
    if x < s.headIndex && x !in s.delivered { ClaimedInHand(s, x); }
    forall t | InHand(s, t, x) ensures x < s.headIndex && !Delivered(s, x) { InHandClaimed(s, t, x); }
    forall t, u | InHand(s, t, x) && InHand(s, u, x) ensures t == u { OneHand(s, t, u, x); }
  }

  lemma Reached(s0: State, schedule: seq<Action>) returns (s: S.State)
    requires Init(s0)
    ensures s == Run(s0, schedule).store && S.Inv(s)
  {
    InitHasInv(s0);
    RunKeepsInv(s0, schedule);
    s := Run(s0, schedule).store;
  }

  // ----- conservation and order

  function Values(log: seq<S.Delivery>): (r: seq<Metric>)
    ensures |r| == |log| && forall d | 0 <= d < |log| :: r[d] == log[d].value
  {
    seq(|log|, d requires 0 <= d < |log| => log[d].value)
  }

  /** The deliveries are of the indices 0 .. n - 1. */
  ghost predicate Fills(log: seq<S.Delivery>, n: nat) {
    forall x: nat :: x in S.DeliveredIn(log) <==> x < n
  }

  function Without(log: seq<S.Delivery>, c: nat): seq<S.Delivery>
    requires c < |log|
  {
    log[..c] + log[c + 1..]
  }

  lemma WithoutFills(log: seq<S.Delivery>, c: nat, n: nat)
    requires c < |log| && 0 < n && log[c].index == n - 1 && Fills(log, n)
    requires forall b, d | 0 <= b < d < |log| :: log[b].index != log[d].index
    ensures Fills(Without(log, c), n - 1)
  {
    var rest := Without(log, c);
    forall x: nat ensures x in S.DeliveredIn(rest) <==> x < n - 1 {
      if x in S.DeliveredIn(rest) {
        var d :| 0 <= d < |rest| && rest[d].index == x;
        assert log[if d < c then d else d + 1].index == x && x in S.DeliveredIn(log);
      }
      if x < n - 1 {
        assert x in S.DeliveredIn(log);
        var e :| 0 <= e < |log| && log[e].index == x;
        assert rest[if e < c then e else e - 1].index == x;
      }
    }
  }

  lemma WithoutValues(log: seq<S.Delivery>, c: nat)
    requires c < |log|
    ensures multiset(Values(log)) == multiset(Values(Without(log, c))) + multiset{log[c].value}
  {
    var all := Values(log);
    assert all == all[..c] + [all[c]] + all[c + 1..];
    assert Values(Without(log, c)) == all[..c] + all[c + 1..];
  }

  lemma LogDelivers(log: seq<S.Delivery>)
    ensures forall d | 0 <= d < |log| :: log[d].index in S.DeliveredIn(log)
  {
  }

  /** Deliveries of distinct indices that fill 0 .. n - 1 give the first n elements, in some order. */
  lemma {:induction false} SameMultiset(log: seq<S.Delivery>, enqueued: seq<Metric>, n: nat)
    requires S.LogTrue(log, enqueued) && n <= |enqueued| && Fills(log, n)
    ensures multiset(Values(log)) == multiset(enqueued[..n])
    decreases n
  {
    hide Values, Without;
    if n == 0 {
      LogDelivers(log);
    } else {
      assert n - 1 in S.DeliveredIn(log);
      var c :| 0 <= c < |log| && log[c].index == n - 1;
      WithoutFills(log, c, n);
      WithoutTrue(log, c, enqueued);
      WithoutValues(log, c);
      SameMultiset(Without(log, c), enqueued, n - 1);
      assert enqueued[..n] == enqueued[..n - 1] + [enqueued[n - 1]];
    }
  }

  lemma WithoutTrue(log: seq<S.Delivery>, c: nat, enqueued: seq<Metric>)
    requires c < |log| && S.LogTrue(log, enqueued)
    ensures S.LogTrue(Without(log, c), enqueued)
  {
  }

  predicate NoneInHand(s: S.State) {
    forall t | 0 <= t < |s.threads| :: !S.Active(s.threads[t])
  }

  lemma RestDeliversAll(s: S.State)
    requires S.Inv(s) && NoneInHand(s)
    ensures Fills(s.log, s.headIndex) && S.LogTrue(s.log, s.enqueued) && s.headIndex <= s.tailIndex == |s.enqueued|
  {
  }

  /** Conservation: when no consumer is at work, what was delivered and what is still in the queue
      are together exactly what was enqueued. */
  lemma Conservation(s0: State, schedule: seq<Action>)
    requires Init(s0) && NoneInHand(Run(s0, schedule).store)
    ensures var s := Run(s0, schedule);
            multiset(Values(s.store.log)) + multiset(Contents(s)) == multiset(s.store.enqueued)
  {
    hide Init, S.Inv, Values, Fills, Step, Enabled, Safe;
    var s := Reached(s0, schedule);
    RestDeliversAll(s);
    SameMultiset(s.log, s.enqueued, s.headIndex);
    assert Contents(Run(s0, schedule)) == s.enqueued[s.headIndex..];
    assert s.enqueued == s.enqueued[..s.headIndex] + s.enqueued[s.headIndex..];
  }

  /** Order: whatever other consumers do, the elements one consumer gets from this producer come to
      it in the order in which they were enqueued. */
  lemma EachConsumerInOrder(s0: State, schedule: seq<Action>, c: nat, d: nat)
    requires Init(s0)
    requires var log := Run(s0, schedule).store.log; c < d < |log| && log[c].t == log[d].t
    ensures var s := Run(s0, schedule).store;
            && s.log[c].index < s.log[d].index < |s.enqueued|
            && s.log[c].value == s.enqueued[s.log[c].index] && s.log[d].value == s.enqueued[s.log[d].index]
  {
    var s := Reached(s0, schedule);
  }

  predicate OnlyBy(log: seq<S.Delivery>, t: Tid) {
    forall d | 0 <= d < |log| :: log[d].t == t
  }

  lemma {:induction false} IncreasingFills(log: seq<S.Delivery>, n: nat, d: nat)
    requires Fills(log, n) && d < |log|
    requires forall b, c | 0 <= b < c < |log| :: log[b].index < log[c].index
    ensures log[d].index == d
  {
    if d > 0 { IncreasingFills(log, n, d - 1); }
    assert log[d].index in S.DeliveredIn(log) && d < n;
    assert d in S.DeliveredIn(log);
    var c :| 0 <= c < |log| && log[c].index == d;
    if c < d { IncreasingFills(log, n, c); }
  }

  lemma LogIs(s: S.State)
    requires S.Inv(s)
    ensures S.LogTrue(s.log, s.enqueued) && S.LogOrdered(s.log) && S.LogBehind(s.log, s.threads) && s.delivered == S.DeliveredIn(s.log)
    ensures s.headIndex <= |s.enqueued|
  {
  }

  predicate OthersIdle(s: S.State, t: Tid) {
    t < |s.threads| && forall u | 0 <= u < |s.threads| && u != t :: !S.Active(s.threads[u])
  }

  /** A lone consumer has been given everything up to what it now holds. */
  lemma LoneFills(s: S.State, t: Tid) returns (n: nat)
    requires S.Inv(s) && OthersIdle(s, t) && OnlyBy(s.log, t)
    ensures Fills(s.log, n) && n <= |s.enqueued|
  {
    hide S.Inv;
    LogIs(s);
    n := if InHand(s, t, s.threads[t].i) then s.threads[t].i else s.headIndex;
    if InHand(s, t, n) { InHandClaimed(s, t, n); }
    forall x: nat ensures x in S.DeliveredIn(s.log) <==> x < n {
      DeliveredMeans(s, x);
      if x < n && x !in s.delivered {
        ClaimedInHand(s, x);
      }
    }
  }

  /** First in, first out: as long as one consumer alone takes from this producer, what it has been
      given, in the order it was given, is exactly a prefix of what was enqueued. */
  lemma LoneConsumerFifo(s0: State, schedule: seq<Action>, t: Tid)
    requires Init(s0)
    requires var s := Run(s0, schedule).store; OthersIdle(s, t) && OnlyBy(s.log, t)
    ensures var s := Run(s0, schedule).store; Values(s.log) <= s.enqueued
  {
    hide Init, Inv, S.Inv, Step, Enabled, Safe;
    var s := Reached(s0, schedule);
    LogIs(s);
    var n := LoneFills(s, t);
    forall d | 0 <= d < |s.log| ensures d < |s.enqueued| && s.log[d].value == s.enqueued[d] { IncreasingFills(s.log, n, d); }
    if s.log != [] { IncreasingFills(s.log, n, |s.log| - 1); }
  }

  // ----- enqueue_bulk is all or nothing

  /** The producer's next step is refused what it asks for: room in the range of indices, an index,
      memory for a larger one, or a block. */
  predicate Refuses(s: S.State, memory: bool, got: Option<B.Bid>) {
    match s.producer.at
    case PNext => |s.producer.chain| != S.NewBlocks(s.tailIndex, |s.producer.items|)
                  && S.NextNumber(s) * B.BLOCK_SIZE + B.BLOCK_SIZE - s.headIndex >= S.HALF
    case PRoom => s.ix.headers == []
    case PGrow => !memory
    case PRequisition => got.None?
    case _ => false
  }

  /** Some step of the producer in such a run was refused what it asked for. */
  predicate Refused(s: State, schedule: seq<Action>) {
    schedule != [] &&
    var before, a := Run(s, schedule[..|schedule| - 1]), schedule[|schedule| - 1];
    || Refused(s, schedule[..|schedule| - 1])
    || (a.Produce? && Enabled(before, a) && Safe(before, a) && Refuses(before.store, a.memory, a.got))
  }

  /** What the call returns, or is going to do, tells whether it was refused something. */
  predicate Verdict(s: S.State, refused: bool) {
    if s.producer.at.PIdle? then s.answer <==> !refused else S.Undoing(s.producer.at) <==> refused
  }

  lemma ProducerVerdict(s: S.State, memory: bool, got: Option<B.Bid>, refused: bool)
    requires S.ProducerSafe(s) && (got.Some? ==> got.value < |s.owner|) && !s.producer.at.PIdle? && Verdict(s, refused)
    ensures Verdict(S.ProducerStep(s, memory, got), refused || Refuses(s, memory, got))
  {
    hide S.ProducerSafe, S.FoundEntry, S.Target, B.Grow, B.StoreValue, B.StoreKey, B.StoreTail, B.Rewind, S.SetSlot, B.NextEntry, B.HasRoom;
  }

  predicate NoEnqueue(schedule: seq<Action>) {
    forall i | 0 <= i < |schedule| :: !schedule[i].Enqueue?
  }

  /** Nothing of a call has shown. */
  predicate Unseen(s0: S.State, s: S.State) {
    s.enqueued == s0.enqueued && s.tailIndex == s0.tailIndex && s.tailBlock == s0.tailBlock && s.home == s0.home
  }

  /** All of a call has: its elements follow the others, and exactly as many blocks as computed at
      its start follow the others too, the last of them the tail block. */
  predicate Complete(s0: S.State, s: S.State, items: seq<Metric>) {
    && s.enqueued == s0.enqueued + items && s.tailIndex == s0.tailIndex + |items|
    && s0.home <= s.home && |s.home| == |s0.home| + S.NewBlocks(s0.tailIndex, |items|)
    && s.tailBlock == if |s.home| == |s0.home| then s0.tailBlock else s.home[|s.home| - 1]
  }

  /** Once the call has returned, what it returned is whether it shows. */
  ghost predicate CallState(s0: S.State, s: S.State, items: seq<Metric>) {
    if s.producer.at.PIdle? then (if s.answer then Complete(s0, s, items) else Unseen(s0, s))
    else Unseen(s0, s) && s.producer.items == items
  }

  lemma ProducerInCall(s0: S.State, s: S.State, items: seq<Metric>, memory: bool, got: Option<B.Bid>)
    requires S.Inv(s) && S.Enabled(s, S.Produce(memory, got)) && CallState(s0, s, items)
    ensures S.ProducerSafe(s) && CallState(s0, S.ProducerStep(s, memory, got), items)
  {
    S.StepKeepsInv(s, S.Produce(memory, got));
    ProducerKeepsItems(s, memory, got);
    ProducerLeaves(s, memory, got);
    if s.producer.at.PWrite? {
      CallWrites(s0, s, items);
    } else {
      hide *;
      HiddenInCall(s0, s, S.ProducerStep(s, memory, got), items);
    }
  }

  lemma HiddenInCall(s0: S.State, s: S.State, s': S.State, items: seq<Metric>)
    requires CallState(s0, s, items) && !s.producer.at.PIdle? && Invisible(s, s')
    requires if s'.producer.at.PIdle? then !s'.answer else s'.producer.items == s.producer.items
    ensures CallState(s0, s', items)
  {
  }

  lemma CallWrites(s0: S.State, s: S.State, items: seq<Metric>)
    requires S.MemoryOk(s) && S.ProducerOk(s) && S.ProducerSafe(s) && s.producer.at.PWrite? && CallState(s0, s, items)
    ensures CallState(s0, S.WriteStep(s), items)
  {
    hide B.IndexOk, S.ValuesOk, S.OwnOk, S.CountsOk, S.ContentsOk, S.FreeOk;
  }

  lemma ProducerKeepsItems(s: S.State, memory: bool, got: Option<B.Bid>)
    requires S.ProducerSafe(s) && (got.Some? ==> got.value < |s.owner|) && !s.producer.at.PIdle?
    ensures var s' := S.ProducerStep(s, memory, got);
            if s'.producer.at.PIdle? then s.producer.at.PWrite? || !s'.answer else s'.producer.items == s.producer.items
  {
    hide S.ProducerSafe, S.FoundEntry, S.Target, B.Grow, B.StoreValue, B.StoreKey, B.StoreTail, B.Rewind, S.SetSlot, B.NextEntry, B.HasRoom;
  }

  /** Whatever consumers and other producers do during a call, and wherever it fails, even after the
      index has grown: the call shows entirely if it returns true, and not at all if it returns false
      or has not returned; and it returns true exactly if it was refused nothing. */
  lemma {:induction false} BulkAllOrNothing(s0: State, items: seq<Metric>, schedule: seq<Action>)
    requires Inv(s0) && Enabled(s0, Enqueue(items)) && NoEnqueue(schedule)
    ensures Safe(s0, Enqueue(items))
    ensures var s := Run(Step(s0, Enqueue(items)), schedule).store;
            CallState(s0.store, s, items) && Verdict(s, Refused(Step(s0, Enqueue(items)), schedule))
  {
    StepKeepsInv(s0, Enqueue(items));
    var s1 := Step(s0, Enqueue(items));
    hide Inv, Enabled, Safe, Refuses, Complete, Unseen;
    if schedule != [] {
      var before, a := Run(s1, schedule[..|schedule| - 1]), schedule[|schedule| - 1];
      BulkAllOrNothing(s0, items, schedule[..|schedule| - 1]);
      RunKeepsInv(s1, schedule[..|schedule| - 1]);
      if Enabled(before, a) && Safe(before, a) {
        StepInCall(s0.store, before, a, items);
        StepVerdict(before, a, Refused(s1, schedule[..|schedule| - 1]));
      }
    }
  }

  lemma StepInCall(s0: S.State, s: State, a: Action, items: seq<Metric>)
    requires Inv(s) && Enabled(s, a) && Safe(s, a) && !a.Enqueue? && CallState(s0, s.store, items)
    ensures CallState(s0, Step(s, a).store, items)
  {
    hide S.Inv, T.Inv, O.OwnersTrue, S.ConsumerSafe, S.ProducerSafe, S.ConsumerStep, S.ProducerStep, Unseen, Complete;
    if a.Produce? { ProducerInCall(s0, s.store, items, a.memory, a.got); }
    else if a.Consume? { ConsumerLeaves(s.store, a.t); SameSeen(s0, s.store, S.ConsumerStep(s.store, a.t), items); }
    else { SameSeen(s0, s.store, Step(s, a).store, items); }
  }

  lemma StepVerdict(s: State, a: Action, refused: bool)
    requires Inv(s) && Enabled(s, a) && Safe(s, a) && !a.Enqueue? && Verdict(s.store, refused)
    ensures Verdict(Step(s, a).store, refused || (a.Produce? && Refuses(s.store, a.memory, a.got)))
  {
    hide S.Inv, T.Inv, O.OwnersTrue, S.ConsumerSafe, S.ProducerSafe, S.ConsumerStep, S.ProducerStep;
    if a.Produce? { ProducerVerdict(s.store, a.memory, a.got, refused); }
    else if a.Consume? { ConsumerLeaves(s.store, a.t); }
  }

  lemma SameSeen(s0: S.State, s: S.State, s': S.State, items: seq<Metric>)
    requires CallState(s0, s, items)
    requires s'.enqueued == s.enqueued && s'.tailIndex == s.tailIndex && s'.tailBlock == s.tailBlock && s'.home == s.home
    requires s'.producer == s.producer && s'.answer == s.answer
    ensures CallState(s0, s', items)
  {
  }

  // ----- where elements are, and what becomes of blocks

  /** Through whichever header, current or replaced, that has ever listed its block, an element that
      has not been moved out is found where it was put; so even while a call is failing, or the
      index is growing, no lookup of an existing element changes. */
  lemma EveryElementFound(s0: State, schedule: seq<Action>, x: nat, j: nat)
    requires Init(s0)
    requires var s := Run(s0, schedule).store;
             x < |s.enqueued| && !Delivered(s, x) && j < |s.ix.headers| && x / B.BLOCK_SIZE < s.ix.headers[j].top
    ensures var s := Run(s0, schedule).store;
            var h := s.ix.headers[j];
            var k := x / B.BLOCK_SIZE;
            && h.index != [] && h.index[B.Pos(k, h.origin, |h.index|)] < |s.ix.entries|
            && var e := s.ix.entries[h.index[B.Pos(k, h.origin, |h.index|)]];
            && e.key == k * B.BLOCK_SIZE && e.value.Some?
            && S.Holds(s.blocks, e.value.value, x, s.enqueued[x])
  {
    hide Init, Inv, S.Inv, Step, Enabled, Safe;
    var s := Reached(s0, schedule);
    DeliveredMeans(s, x);
    FoundNow(s, x, j);
  }

  lemma FoundNow(s: S.State, x: nat, j: nat)
    requires S.Inv(s) && x < |s.enqueued| && x !in s.delivered && j < |s.ix.headers| && x / B.BLOCK_SIZE < s.ix.headers[j].top
    ensures var h := s.ix.headers[j];
            var k := x / B.BLOCK_SIZE;
            && h.index != [] && h.index[B.Pos(k, h.origin, |h.index|)] < |s.ix.entries|
            && var e := s.ix.entries[h.index[B.Pos(k, h.origin, |h.index|)]];
            && e.key == k * B.BLOCK_SIZE && e.value.Some?
            && S.Holds(s.blocks, e.value.value, x, s.enqueued[x])
  {
    hide B.CurrentOk, B.Frozen, S.OwnOk, S.CountsOk, S.ThreadsOk, S.CoverOk, S.LogOk, S.ProducerOk, S.ProducerIndexOk, S.Holds;
    var k := x / B.BLOCK_SIZE;
    S.StillHome(s, x);
    assert B.HeaderOk(s.ix, s.ix.headers[j]);
    assert B.ValueOf(s.ix, k) == S.Expected(s.home, s.producer.chain, s.producer.undone, s.cleared, k);
  }

  /** The block of x has not been given back. */
  lemma LiveBlock(s: S.State, x: nat)
    requires S.Inv(s) && x < |s.enqueued| && x !in s.delivered
    ensures var k := x / B.BLOCK_SIZE; k < |s.home| && s.home[k] < |s.owner| && s.owner[s.home[k]] == S.Number(k)
    ensures var k := x / B.BLOCK_SIZE; s.home[k] !in s.free
  {
    hide B.IndexOk, S.ValuesOk, S.CountsOk, S.ContentsOk, S.ThreadsOk, S.CoverOk, S.LogOk, S.ProducerOk, S.ProducerIndexOk;
    S.StillHome(s, x);
  }

  /** Recycling: no block of the pool holds an element that is still to be moved out or is known to
      this producer, and a block's counter is the number of its indices that are finished with. */
  lemma BlocksRecycledSafely(s0: State, schedule: seq<Action>)
    requires Init(s0)
    ensures var s := Run(s0, schedule).store;
            && (forall x: nat | x < |s.enqueued| && !Delivered(s, x) ::
                  x / B.BLOCK_SIZE < |s.home| && s.home[x / B.BLOCK_SIZE] !in s.free)
            && (forall b <- s.free :: b < |s.owner| && s.owner[b] == S.Nobody)
            && (forall k | 0 <= k < |s.home| && k !in s.cleared ::
                  s.home[k] < |s.blocks| && s.blocks[s.home[k]].done == |S.CountedIn(s.counted, k)|)
            && s.counted <= s.delivered
  {
    hide Init, Inv, S.Inv, Step, Enabled, Safe, Delivered;
    var s := Reached(s0, schedule);
    forall x: nat | x < |s.enqueued| && !Delivered(s, x) ensures x / B.BLOCK_SIZE < |s.home| && s.home[x / B.BLOCK_SIZE] !in s.free {
      DeliveredMeans(s, x);
      LiveBlock(s, x);
    }
    MemoryKnown(s);
  }

  lemma MemoryKnown(s: S.State)
    requires S.Inv(s)
    ensures S.CountsOk(s.blocks, s.home, s.cleared, s.counted, s.producer.chain, s.producer.freed)
    ensures S.FreeOk(s.free, s.owner) && s.counted <= s.delivered
  {
  }

  /** A consumer about to give back block number k, every element of which is finished with. */
  ghost predicate GivesBack(s: S.State, t: Tid, k: nat) {
    && t < |s.threads| && s.threads[t].at.Clear? && s.threads[t].k == k
    && k < |s.home| && s.threads[t].block == s.home[k] && k !in s.cleared && S.AllCounted(s.counted, k)
  }

  lemma ClearingGivesBack(s: S.State, t: Tid)
    requires S.Inv(s) && t < |s.threads| && s.threads[t].at.Clear?
    ensures GivesBack(s, t, s.threads[t].k)
  {
    hide S.MemoryOk, S.CoverOk, S.LookupOk, S.LogOk, S.ProducerOk, S.ProducerIndexOk;
    assert S.ThreadOk(s, t);
  }

  lemma OneGivesBack(s: S.State, t: Tid, u: Tid, k: nat)
    requires S.Inv(s) && GivesBack(s, t, k) && GivesBack(s, u, k)
    ensures t == u
  {
  }

  lemma EmptiedGivenBack(s: S.State, k: nat)
    requires S.Inv(s) && k < |s.home|
    ensures k in s.cleared ==> S.AllCounted(s.counted, k)
    ensures k !in s.cleared && S.AllCounted(s.counted, k) ==> exists t :: GivesBack(s, t, k)
  {
    hide B.IndexOk, S.ValuesOk, S.OwnOk, S.ContentsOk, S.ThreadsOk, S.LogOk, S.ProducerOk, S.ProducerIndexOk;
    if k !in s.cleared && S.AllCounted(s.counted, k) {
      var t :| 0 <= t < |s.threads| && s.threads[t].at.Clear? && s.threads[t].k == k;
      ClearingGivesBack(s, t);
    }
  }

  /** Exactly one dequeuer gives a block back: who is about to has a block that is emptied and not
      given back yet; no two are about to at once; and an emptied block either has been given back
      or somebody is about to. */
  lemma OneDequeuerGivesBack(s0: State, schedule: seq<Action>, k: nat)
    requires Init(s0) && k < |Run(s0, schedule).store.home|
    ensures var s := Run(s0, schedule).store;
            && (forall t | 0 <= t < |s.threads| && s.threads[t].at.Clear? && s.threads[t].k == k :: GivesBack(s, t, k))
            && (forall t, u | GivesBack(s, t, k) && GivesBack(s, u, k) :: t == u)
            && (S.AllCounted(s.counted, k) <==> (k in s.cleared || exists t :: GivesBack(s, t, k)))
  {
    hide Init, Inv, S.Inv, Step, Enabled, Safe, GivesBack;
    var s := Reached(s0, schedule);
    forall t | 0 <= t < |s.threads| && s.threads[t].at.Clear? && s.threads[t].k == k ensures GivesBack(s, t, k) { ClearingGivesBack(s, t); }
    forall t, u | GivesBack(s, t, k) && GivesBack(s, u, k) ensures t == u { OneGivesBack(s, t, u, k); }
    EmptiedGivenBack(s, k);
    GivesBackEmptied(s, k);
  }

  lemma GivesBackEmptied(s: S.State, k: nat)
    ensures (exists t :: GivesBack(s, t, k)) ==> S.AllCounted(s.counted, k)
  {
  }

  /** The number of the block that a step of consumer t puts into the pool, if it does. */
  function ReturnedBy(s: S.State, s': S.State, t: Tid): seq<nat> {
    if t < |s.threads| && s.threads[t].at.Release? && s.threads[t].k < |s.home|
       && s.home[s.threads[t].k] !in s.free && s'.free == s.free + {s.home[s.threads[t].k]}
    then [s.threads[t].k] else []
  }

  /** The numbers of the blocks that consumers have put into the pool during a run. */
  function Returned(s: State, schedule: seq<Action>): seq<nat> {
    if schedule == [] then []
    else
      var before, a := Run(s, schedule[..|schedule| - 1]), schedule[|schedule| - 1];
      Returned(s, schedule[..|schedule| - 1])
      + if a.Consume? && Enabled(before, a) && Safe(before, a) then ReturnedBy(before.store, Step(before, a).store, a.t) else []
  }

  /** Consumer t has emptied block number k and is about to put it into the pool. */
  predicate Hands(s: S.State, t: Tid, k: nat) {
    && t < |s.threads| && s.threads[t].k == k < |s.home| && s.threads[t].block == s.home[k]
    && (s.threads[t].at.Clear? || s.threads[t].at.Release?)
  }

  predicate Releases(s: S.State, t: Tid, k: nat) {
    t < |s.threads| && s.threads[t].at.Release? && s.threads[t].k == k
  }

  ghost predicate ReturnsOk(s: S.State, returned: seq<nat>) {
    && (forall i, j | 0 <= i < j < |returned| :: returned[i] != returned[j])
    && (forall k <- returned :: k in s.cleared)
    && (forall k <- s.cleared :: k in returned || exists t :: Releases(s, t, k))
    && (forall t, k | Releases(s, t, k) :: k in s.cleared && k !in returned && Hands(s, t, k))
    && (forall t, u, k | Releases(s, t, k) && Releases(s, u, k) :: t == u)
  }

  /** Nobody comes to give back or gives back, and the blocks keep their numbers. */
  predicate NobodyReturns(s: S.State, s': S.State) {
    && s'.cleared == s.cleared && s.home <= s'.home && |s'.threads| == |s.threads|
    && forall t | 0 <= t < |s.threads| ::
         s'.threads[t].at.Release? == s.threads[t].at.Release?
         && (s.threads[t].at.Release? ==> s'.threads[t] == s.threads[t])
  }

  lemma QuietReturns(s: S.State, s': S.State, returned: seq<nat>)
    requires ReturnsOk(s, returned) && NobodyReturns(s, s')
    ensures ReturnsOk(s', returned)
  {
    forall k <- s'.cleared ensures k in returned || exists t :: Releases(s', t, k) {
      if k !in returned {
        var t :| Releases(s, t, k);
        assert Releases(s', t, k);
      }
    }
    forall t, k | Releases(s', t, k) ensures Releases(s, t, k) && Hands(s', t, k) { assert Releases(s, t, k) && Hands(s, t, k); }
  }

  lemma ClearReturns(s: S.State, t: Tid, returned: seq<nat>)
    requires S.Inv(s) && t < |s.threads| && s.threads[t].at.Clear? && S.ConsumerSafe(s, s.threads[t]) && ReturnsOk(s, returned)
    ensures ReturnsOk(S.ClearStep(s, t), returned)
  {
    ClearingGivesBack(s, t);
    hide S.Inv, S.ConsumerSafe, S.AllCounted;
    var s', k := S.ClearStep(s, t), s.threads[t].k;
    assert Releases(s', t, k);
    forall m <- s'.cleared ensures m in returned || exists u :: Releases(s', u, m) {
      if m !in returned && m != k {
        var u :| Releases(s, u, m);
        assert Releases(s', u, m);
      }
    }
    forall u, m | Releases(s', u, m) ensures m in s'.cleared && m !in returned && Hands(s', u, m) && (u != t ==> m != k) {
      if u != t { assert Releases(s, u, m) && Hands(s, u, m); }
    }
    forall u, v, m | Releases(s', u, m) && Releases(s', v, m) ensures u == v {
      if u != t && v != t { assert Releases(s, u, m) && Releases(s, v, m); }
    }
  }

  lemma ReleasedFrom(s: S.State, t: Tid)
    requires S.Inv(s) && t < |s.threads| && s.threads[t].at.Release?
    ensures s.threads[t].block !in s.free
  {
    hide S.ProducerOk, S.CoverOk, S.LookupOk, S.LogOk, S.ProducerIndexOk, S.CountsOk, S.ContentsOk, S.ValuesOk, B.IndexOk;
    assert S.ThreadOk(s, t);
  }

  lemma ReleaseReturns(s: S.State, t: Tid, returned: seq<nat>)
    requires S.Inv(s) && t < |s.threads| && s.threads[t].at.Release? && S.ConsumerSafe(s, s.threads[t]) && ReturnsOk(s, returned)
    ensures var s' := S.ReleaseStep(s, t);
            ReturnedBy(s, s', t) == [s.threads[t].k] && ReturnsOk(s', returned + ReturnedBy(s, s', t))
  {
    ReleasedFrom(s, t);
    hide S.Inv, S.ConsumerSafe;
    var s', k := S.ReleaseStep(s, t), s.threads[t].k;
    var returned' := returned + [k];
    assert Releases(s, t, k) && Hands(s, t, k);
    forall m <- s'.cleared ensures m in returned' || exists u :: Releases(s', u, m) {
      if m !in returned && m != k {
        var u :| Releases(s, u, m);
        assert Releases(s', u, m);
      }
    }
    forall u, m | Releases(s', u, m) ensures m in s'.cleared && m !in returned' && Hands(s', u, m) && Releases(s, u, m) {
      assert Releases(s, u, m) && Hands(s, u, m);
    }
  }

  lemma ConsumeReturns(s: S.State, t: Tid, returned: seq<nat>)
    requires S.Inv(s) && S.Enabled(s, S.Consume(t)) && S.Safe(s, S.Consume(t)) && ReturnsOk(s, returned)
    ensures var s' := S.ConsumerStep(s, t); ReturnsOk(s', returned + ReturnedBy(s, s', t))
  {
    hide S.Inv, S.ConsumerSafe, ReturnsOk, S.ClearStep, S.ReleaseStep;
    var at := s.threads[t].at;
    if at.Clear? { ClearReturns(s, t, returned); }
    else if at.Release? { ReleaseReturns(s, t, returned); }
    else {
      QuietConsumer(s, t);
      QuietReturns(s, S.ConsumerStep(s, t), returned);
    }
    assert !at.Release? ==> returned + ReturnedBy(s, S.ConsumerStep(s, t), t) == returned;
  }

  lemma QuietConsumer(s: S.State, t: Tid)
    requires S.Enabled(s, S.Consume(t)) && S.Safe(s, S.Consume(t)) && !s.threads[t].at.Clear? && !s.threads[t].at.Release?
    ensures NobodyReturns(s, S.ConsumerStep(s, t))
  {
    hide S.SetSlot, S.Stop, B.SlotFor;
  }

  lemma StepReturns(s: State, a: Action, returned: seq<nat>)
    requires Inv(s) && Enabled(s, a) && Safe(s, a) && ReturnsOk(s.store, returned)
    ensures ReturnsOk(Step(s, a).store, returned + if a.Consume? then ReturnedBy(s.store, Step(s, a).store, a.t) else [])
  {
    hide S.Inv, T.Inv, O.OwnersTrue, S.ConsumerSafe, S.ProducerSafe, S.ConsumerStep, S.ProducerStep, ReturnsOk;
    if a.Consume? {
      ConsumeReturns(s.store, a.t, returned);
    } else {
      if a.Produce? { ProducerNumbers(s.store, a.memory, a.got); }
      QuietReturns(s.store, Step(s, a).store, returned);
      assert returned + [] == returned;
    }
  }

  lemma ProducerNumbers(s: S.State, memory: bool, got: Option<B.Bid>)
    requires S.ProducerSafe(s) && (got.Some? ==> got.value < |s.owner|)
    ensures NobodyReturns(s, S.ProducerStep(s, memory, got))
  {
    ProducerLeaves(s, memory, got);
  }

  lemma {:induction false} RunReturns(s0: State, schedule: seq<Action>)
    requires Init(s0)
    ensures ReturnsOk(Run(s0, schedule).store, Returned(s0, schedule))
  {
    hide Inv, Enabled, Safe, Step, Init, ReturnsOk;
    InitHasInv(s0);
    if schedule == [] {
      FirstReturns(s0);
    } else {
      RunReturns(s0, schedule[..|schedule| - 1]);
      RunKeepsInv(s0, schedule[..|schedule| - 1]);
      var before, a := Run(s0, schedule[..|schedule| - 1]), schedule[|schedule| - 1];
      var returned := Returned(s0, schedule[..|schedule| - 1]);
      assert returned + [] == returned;
      if Enabled(before, a) && Safe(before, a) { StepReturns(before, a, returned); }
    }
  }

  lemma FirstReturns(s0: State)
    requires Init(s0)
    ensures ReturnsOk(s0.store, [])
  {
  }

  /** Every block whose elements are all dequeued is put into the pool exactly once: no block is put
      there twice under the same number; it has been put there, or exactly one consumer is about to;
      and only such blocks are. */
  lemma BlockReturnedOnce(s0: State, schedule: seq<Action>, k: nat)
    requires Init(s0) && k < |Run(s0, schedule).store.home|
    ensures var s, returned := Run(s0, schedule).store, Returned(s0, schedule);
            && (forall i, j | 0 <= i < j < |returned| :: returned[i] != returned[j])
            && (S.AllCounted(s.counted, k) <==> (k in returned || exists t :: Hands(s, t, k)))
            && (forall t | Hands(s, t, k) :: k !in returned)
            && (forall t, u | Hands(s, t, k) && Hands(s, u, k) :: t == u)
  {
    hide Init, Inv, S.Inv, Step, Enabled, Safe, GivesBack;
    var s := Reached(s0, schedule);
    var returned := Returned(s0, schedule);
    RunReturns(s0, schedule);
    EmptiedGivenBack(s, k);
    forall t: Tid | Hands(s, t, k) ensures if s.threads[t].at.Clear? then GivesBack(s, t, k) else Releases(s, t, k) {
      if s.threads[t].at.Clear? { ClearingGivesBack(s, t); }
    }
    GivesBackFits(s, k);
    forall t: Tid, u: Tid | Hands(s, t, k) && Hands(s, u, k) ensures t == u {
      if s.threads[t].at.Clear? && s.threads[u].at.Clear? { OneGivesBack(s, t, u, k); }
    }
  }

  lemma GivesBackFits(s: S.State, k: nat)
    ensures forall t | GivesBack(s, t, k) :: Hands(s, t, k) && k !in s.cleared && S.AllCounted(s.counted, k)
  {
  }

  /** Every step of this queue does to the pool what the other producers rely on. */
  lemma StepGuarantees(s: State, a: Action)
    requires Inv(s) && Enabled(s, a) && !a.Others?
    ensures Safe(s, a) && O.Guarantees(s.store, Step(s, a).store)
  {
    hide S.Inv, T.Inv, O.OwnersTrue, S.ConsumerSafe, S.ProducerSafe, S.ConsumerStep, S.ProducerStep;
    StepKeepsInv(s, a);
    O.PoolShape(s.store);
    match a
    case Enqueue(items) => O.StepGuarantees(s.store, S.Enqueue(items));
    case Produce(memory, got) => O.StepGuarantees(s.store, S.Produce(memory, got));
    case Consume(t) => O.StepGuarantees(s.store, S.Consume(t));
    case Draw(t) => if Claims(s, t) { O.StepGuarantees(s.store, S.Claim(t, s.tickets.threads[t].actual)); }
    case Dequeue(_, _) =>
    case Others(_, _) =>
  }

  /** No block leaks: in every run each step of this queue keeps together the blocks of the pool and
      those it uses for its elements, for an enqueue in progress, or that a consumer is about to give
      back; and none is both. */
  lemma NoBlockLeaks(s0: State, schedule: seq<Action>, a: Action, b: B.Bid)
    requires Init(s0) && Enabled(Run(s0, schedule), a) && !a.Others? && b < |Run(s0, schedule).store.owner|
    ensures var s := Run(s0, schedule);
            && Safe(s, a)
            && var s' := Step(s, a);
            && (b in s'.store.free || O.Uses(s'.store, b) <==> b in s.store.free || O.Uses(s.store, b))
            && !(b in s.store.free && O.Uses(s.store, b))
  {
    hide Init, S.Inv, T.Inv, O.OwnersTrue, O.Uses, Step, Enabled, Safe;
    InitHasInv(s0);
    RunKeepsInv(s0, schedule);
    var s := Run(s0, schedule);
    StepKeepsInv(s, a);
    StepGuarantees(s, a);
    var s' := Step(s, a);
    O.OwnedIsUsed(s.store, b);
    O.OwnedIsUsed(s'.store, b);
    O.PoolShape(s.store);
    assert O.InReach(s'.store, b) <==> O.InReach(s.store, b);
  }

  /** The queue never holds half the range of index_t: the bound under which wrapped indices compare
      like these unbounded ones (CircularIndex). */
  lemma LengthStaysBelowHalf(s0: State, schedule: seq<Action>)
    requires Init(s0)
    ensures var s := Run(s0, schedule).store; 0 <= s.tailIndex - s.headIndex < S.HALF
  {
    hide B.IndexOk, S.ValuesOk, S.OwnOk, S.CountsOk, S.ContentsOk, S.ThreadsOk, S.CoverOk, S.LogOk, S.ProducerIndexOk;
    var s := Reached(s0, schedule);
  }
}
