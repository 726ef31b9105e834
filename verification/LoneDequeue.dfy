/** One call of ImplicitProducer::dequeue_bulk that no other call disturbs: all its steps, one after
the other. With a maximum of one it is dequeue. */
module LoneDequeue {

  import opened Collections

  import T = Tickets
  import S = SubQueue
  import B = BlockIndex
  import P = ProducerQueue

  type Tid = nat

  // ----- fetching the claimed elements

  /** How many steps a consumer still takes, at most: for each element five, of which four are for
      the block that it may be the last of. */
  function StepsLeft(th: S.Consumer): int {
    match th.at
    case CIdle => 0
    case LoadHeader => 5 * (th.end - th.i) + 3
    case LoadTail => 5 * (th.end - th.i) + 2
    case LoadKey => 5 * (th.end - th.i) + 1
    case LoadValue => 5 * (th.end - th.i)
    case Read => 5 * (th.end - th.i) - 1
    case Count => 5 * (th.end - th.i) + 3
    case Clear => 5 * (th.end - th.i) + 2
    case Release => 5 * (th.end - th.i) + 1
  }

  /** The elements of the indices lo .. hi - 1, delivered in this order. */
  function Deliveries(enqueued: seq<S.Metric>, t: Tid, lo: nat, hi: nat): (r: seq<S.Delivery>)
    requires lo <= hi <= |enqueued|
    ensures |r| == hi - lo && forall j | 0 <= j < |r| :: r[j] == S.Delivery(t, lo + j, enqueued[lo + j])
    decreases hi - lo
  {
    if lo == hi then [] else [S.Delivery(t, lo, enqueued[lo])] + Deliveries(enqueued, t, lo + 1, hi)
  }

  /** The consumer's place within its claim. */
  predicate Placed(s: S.State, th: S.Consumer) {
    S.Active(th) ==> th.i <= th.end <= |s.enqueued| && (S.Looking(th.at) || th.at.Read? ==> th.i < th.end)
  }

  /** What the consumer is still going to deliver. */
  function Due(s: S.State, t: Tid): seq<S.Delivery> {
    if t < |s.threads| && S.Active(s.threads[t]) && s.threads[t].i <= s.threads[t].end <= |s.enqueued|
    then Deliveries(s.enqueued, t, s.threads[t].i, s.threads[t].end) else []
  }

  /** The step does nothing to the rest of the queue. */
  predicate Onlooking(s: S.State, s': S.State, t: Tid) {
    && s'.enqueued == s.enqueued && s'.headIndex == s.headIndex && s'.tailIndex == s.tailIndex
    && |s'.threads| == |s.threads| && forall u | 0 <= u < |s.threads| && u != t :: s'.threads[u] == s.threads[u]
  }

  lemma ReadsClaimed(s: S.State, t: Tid)
    requires S.Inv(s) && t < |s.threads| && s.threads[t].at.Read?
    ensures var th := s.threads[t];
            && S.ConsumerSafe(s, th) && th.i < |s.enqueued| && s.blocks[th.block].slots[th.i % B.BLOCK_SIZE] == Some(s.enqueued[th.i])
  {
    S.ReadSafe(s, t);
  }

  lemma StaysPlaced(s: S.State, t: Tid)
    requires S.Inv(s) && t < |s.threads|
    ensures Placed(s, s.threads[t])
  {
    hide S.LogOk, S.CoverOk, S.WrittenOk, S.ProducerOk, S.ProducerIndexOk, S.LookupOk, S.BlockOk, S.ProgressOk;
    assert S.ThreadOk(s, t);
  }

  lemma FetchStep(s: S.State, t: Tid)
    requires S.Inv(s) && t < |s.threads| && S.Active(s.threads[t])
    ensures S.ConsumerSafe(s, s.threads[t])
    ensures var s' := S.ConsumerStep(s, t);
            && S.Inv(s') && Onlooking(s, s', t)
            && StepsLeft(s'.threads[t]) < StepsLeft(s.threads[t])
            && s'.log + Due(s', t) == s.log + Due(s, t)
  {
    S.StepKeepsInv(s, S.Consume(t));
    StaysPlaced(s, t);
    if s.threads[t].at.Read? { ReadsClaimed(s, t); }
    hide S.Inv;
    FetchProgress(s, t);
    DueMoves(s, t);
  }

  lemma FetchProgress(s: S.State, t: Tid)
    requires t < |s.threads| && S.Active(s.threads[t]) && Placed(s, s.threads[t]) && S.ConsumerSafe(s, s.threads[t])
    ensures var s' := S.ConsumerStep(s, t);
            Onlooking(s, s', t) && StepsLeft(s'.threads[t]) < StepsLeft(s.threads[t])
  {
    hide S.SetSlot, B.StoreValue, B.SlotFor;
  }

  lemma DueMoves(s: S.State, t: Tid)
    requires t < |s.threads| && S.Active(s.threads[t]) && Placed(s, s.threads[t]) && S.ConsumerSafe(s, s.threads[t])
    requires var th := s.threads[t];
             th.at.Read? ==> th.i < |s.enqueued| && s.blocks[th.block].slots[th.i % B.BLOCK_SIZE] == Some(s.enqueued[th.i])
    ensures var s' := S.ConsumerStep(s, t); s'.log + Due(s', t) == s.log + Due(s, t)
  {
    hide S.SetSlot, B.StoreValue, B.SlotFor;
  }

  // ----- the call

  /** The action if it is enabled, else nothing. */
  function Try(s: P.State, a: P.Action): P.State {
    if P.Enabled(s, a) && P.Safe(s, a) then P.Step(s, a) else s
  }

  function Repeat(s: P.State, a: P.Action, n: nat): P.State {
    if n == 0 then s else Try(Repeat(s, a, n - 1), a)
  }

  /** The claim takes at most five steps after the call, and fetching one element at most eight, each
      further one at most five. */
  function Claimed(s: P.State, t: Tid, max: nat): P.State {
    Repeat(Try(s, P.Dequeue(t, max)), P.Draw(t), 5)
  }

  function Dequeued(s: P.State, t: Tid, max: nat): P.State {
    Repeat(Claimed(s, t, max), P.Consume(t), 5 * max + 3)
  }

  lemma TryKeepsInv(s: P.State, a: P.Action)
    requires P.Inv(s)
    ensures P.Inv(Try(s, a))
  {
    hide P.Inv, P.Enabled, P.Safe, P.Step;
    if P.Enabled(s, a) { P.StepKeepsInv(s, a); }
  }

  /** The state after n steps of fetching. */
  predicate Fetched(s: S.State, s': S.State, t: Tid, n: nat) {
    && Onlooking(s, s', t) && t < |s'.threads|
    && (StepsLeft(s'.threads[t]) + n <= StepsLeft(s.threads[t]) || !S.Active(s'.threads[t]))
    && s'.log + Due(s', t) == s.log + Due(s, t)
  }

  lemma TryConsumes(s: P.State, t: Tid)
    requires P.Inv(s) && t < |s.store.threads|
    ensures var s' := Try(s, P.Consume(t)); P.Inv(s') && s'.tickets == s.tickets && Fetched(s.store, s'.store, t, 1)
    ensures !S.Active(s.store.threads[t]) ==> Try(s, P.Consume(t)) == s
  {
    hide S.Inv, T.Inv, Due, S.ConsumerStep, S.ConsumerSafe;
    TryKeepsInv(s, P.Consume(t));
    if S.Active(s.store.threads[t]) { FetchStep(s.store, t); }
  }

  lemma {:induction false} FetchesAll(s: P.State, t: Tid, n: nat)
    requires P.Inv(s) && t < |s.store.threads|
    ensures var s' := Repeat(s, P.Consume(t), n); P.Inv(s') && s'.tickets == s.tickets && Fetched(s.store, s'.store, t, n)
  {
    hide P.Inv, Try, Due, S.Active, StepsLeft;
    if n > 0 {
      FetchesAll(s, t, n - 1);
      var before := Repeat(s, P.Consume(t), n - 1);
      TryConsumes(before, t);
    }
  }

  function NextTimes(s: T.State, t: Tid, n: nat): (r: T.State)
    requires t < |s.threads|
    ensures |r.threads| == |s.threads|
  {
    if n == 0 then s else T.Next(NextTimes(s, t, n - 1), t)
  }

  /** Until its claim the thread leaves the storage alone, and after it the call is over. */
  predicate ClaimedOnce(s: P.State, s': P.State, t: Tid) {
    && t < |s'.tickets.threads|
    && if s'.tickets.claims == s.tickets.claims then s'.store == s.store
       else
         && s'.tickets.threads[t].at.Idle? && |s'.tickets.claims| == |s.tickets.claims| + 1
         && var count := s'.tickets.claims[|s.tickets.claims|].count;
         && S.Enabled(s.store, S.Claim(t, count)) && s'.store == S.Step(s.store, S.Claim(t, count))
  }

  lemma DrawClaimsOnce(s: P.State, s': P.State, t: Tid)
    requires P.Inv(s') && ClaimedOnce(s, s', t)
    ensures ClaimedOnce(s, Try(s', P.Draw(t)), t) && Try(s', P.Draw(t)).tickets == T.Next(s'.tickets, t)
  {
    hide S.Inv, T.Inv, S.ConsumerSafe, S.ConsumerStep;
    if P.Enabled(s', P.Draw(t)) { P.StepKeepsInv(s', P.Draw(t)); }
  }

  lemma {:induction false} DrawsClaimOnce(s: P.State, t: Tid, n: nat)
    requires P.Inv(s) && t < |s.tickets.threads|
    ensures var s' := Repeat(s, P.Draw(t), n);
            P.Inv(s') && ClaimedOnce(s, s', t) && s'.tickets == NextTimes(s.tickets, t, n)
  {
    hide P.Inv, P.Enabled, P.Safe, P.Step, T.Next;
    if n > 0 {
      DrawsClaimOnce(s, t, n - 1);
      var before := Repeat(s, P.Draw(t), n - 1);
      TryKeepsInv(before, P.Draw(t));
      DrawClaimsOnce(s, before, t);
    }
  }

  /** Thread t has no call in progress here; others may, and stand still. */
  predicate Ready(s: P.State, t: Tid) {
    && t < |s.tickets.threads| == |s.store.threads|
    && s.tickets.threads[t].at.Idle? && !S.Active(s.store.threads[t])
  }

  /** No dequeue is in progress. */
  predicate AtRest(s: P.State) {
    T.AllIdle(s.tickets) && P.NoneInHand(s.store)
  }

  lemma AloneIs(s: T.State, t: Tid, max: nat)
    requires T.Enabled(s, T.CallDequeue(t, max))
    ensures NextTimes(T.Step(s, T.CallDequeue(t, max)), t, 5) == T.Alone(s, t, max)
  {
    var s1 := T.Step(s, T.CallDequeue(t, max));
    hide T.Step, T.Next;
    assert NextTimes(s1, t, 1) == T.Next(s1, t);
    assert NextTimes(s1, t, 2) == T.Next(T.Next(s1, t), t);
    assert NextTimes(s1, t, 3) == T.Next(T.Next(T.Next(s1, t), t), t);
    assert NextTimes(s1, t, 4) == T.Next(T.Next(T.Next(T.Next(s1, t), t), t), t);
  }

  /** How many indices the call claimed. */
  function Count(s: T.State, s': T.State): nat {
    if |s'.claims| == |s.claims| + 1 then s'.claims[|s.claims|].count else 0
  }

  /** The call is over; it claimed indices from the front on: as many as the counters left it, at most
      its maximum. */
  predicate ClaimsSome(s: T.State, s': T.State, t: Tid, max: nat) {
    && t < |s'.threads| == |s.threads| && s'.threads[t].at.Idle?
    && (forall u | 0 <= u < |s.threads| && u != t :: s'.threads[u] == s.threads[u])
    && Count(s, s') == T.Room(s, max) <= max
    && s'.claims == s.claims + if Count(s, s') > 0 then [T.Claim(t, s.headIndex, Count(s, s'))] else []
  }

  lemma AloneEnds(s: T.State, t: Tid, max: nat)
    requires T.Enabled(s, T.CallDequeue(t, max))
    ensures ClaimsSome(s, T.Alone(s, t, max), t, max)
  {
    T.AloneTakesRoom(s, t, max);
    hide T.Alone;
  }

  lemma TryDequeue(s: P.State, t: Tid, max: nat)
    requires P.Inv(s) && Ready(s, t) && max > 0
    ensures var s' := Try(s, P.Dequeue(t, max));
            P.Inv(s') && s'.store == s.store && T.Enabled(s.tickets, T.CallDequeue(t, max))
            && s'.tickets == T.Step(s.tickets, T.CallDequeue(t, max)) && s'.tickets.claims == s.tickets.claims
  {
    hide S.Inv, T.Inv;
    TryKeepsInv(s, P.Dequeue(t, max));
  }

  /** After the claim part of the call. */
  predicate ClaimedFront(s: P.State, s': P.State, t: Tid, max: nat) {
    && ClaimsSome(s.tickets, s'.tickets, t, max)
    && var count := Count(s.tickets, s'.tickets);
    && (if count == 0 then s'.store == s.store
        else S.Enabled(s.store, S.Claim(t, count)) && s'.store == S.Step(s.store, S.Claim(t, count)))
    && (AtRest(s) ==> count == if |P.Contents(s)| < max then |P.Contents(s)| else max)
  }

  lemma ClaimsFront(s: P.State, t: Tid, max: nat)
    requires P.Inv(s) && Ready(s, t) && max > 0
    ensures P.Inv(Claimed(s, t, max)) && ClaimedFront(s, Claimed(s, t, max), t, max)
  {
    hide S.Inv, T.Inv, T.Step, T.Alone, Try, Repeat, S.Step, S.Enabled;
    TryDequeue(s, t, max);
    var s1 := Try(s, P.Dequeue(t, max));
    DrawsClaimOnce(s1, t, 5);
    AloneIs(s.tickets, t, max);
    AloneEnds(s.tickets, t, max);
    EndsFit(s.store);
    if AtRest(s) { T.AloneTakesAllItCan(s.tickets, t, max); }
  }

  /** s1 is s with its first count indices claimed by t. */
  predicate FrontClaimed(s: S.State, s1: S.State, t: Tid, count: nat) {
    && t < |s.threads| == |s1.threads| && s.headIndex + count <= |s.enqueued|
    && StepsLeft(s1.threads[t]) == 5 * count + 3
    && Due(s1, t) == Deliveries(s.enqueued, t, s.headIndex, s.headIndex + count)
    && s1.enqueued == s.enqueued && s1.log == s.log && s1.headIndex == s.headIndex + count && s1.tailIndex == s.tailIndex
    && forall u | 0 <= u < |s.threads| && u != t :: s1.threads[u] == s.threads[u]
  }

  lemma ClaimIsFront(s: S.State, t: Tid, count: nat)
    requires S.Enabled(s, S.Claim(t, count)) && s.tailIndex == |s.enqueued|
    ensures FrontClaimed(s, S.Step(s, S.Claim(t, count)), t, count)
  {
  }

  /** Everybody else is where they were, and t is done. */
  predicate Done(s: S.State, s': S.State, t: Tid) {
    && t < |s.threads| == |s'.threads| && !S.Active(s'.threads[t])
    && (forall u | 0 <= u < |s.threads| && u != t :: s'.threads[u] == s.threads[u])
    && s'.enqueued == s.enqueued && s'.tailIndex == s.tailIndex
  }

  lemma FetchesFront(s: S.State, s1: S.State, s2: S.State, t: Tid, count: nat, n: nat)
    requires FrontClaimed(s, s1, t, count) && Fetched(s1, s2, t, n) && n >= 5 * count + 3 && Placed(s2, s2.threads[t])
    ensures s2.log == s.log + Deliveries(s.enqueued, t, s.headIndex, s.headIndex + count)
    ensures Done(s, s2, t) && s2.headIndex == s.headIndex + count
  {
  }

  lemma EndsFit(s: S.State)
    requires S.Inv(s)
    ensures s.headIndex <= s.tailIndex == |s.enqueued|
  {
  }

  lemma {:induction false} NothingToRepeat(s: P.State, t: Tid, n: nat)
    requires t < |s.store.threads| && !S.Active(s.store.threads[t])
    ensures Repeat(s, P.Consume(t), n) == s
  {
    if n > 0 { NothingToRepeat(s, t, n - 1); }
  }

  /** The call took the first count elements, in order, and nothing else. */
  predicate Took(s: P.State, s': P.State, t: Tid, count: nat) {
    && count <= |P.Contents(s)| && P.Contents(s') == P.Contents(s)[count..]
    && |s'.store.log| == |s.store.log| + count && s'.store.log[..|s.store.log|] == s.store.log
    && forall j | 0 <= j < count :: s'.store.log[|s.store.log| + j] == S.Delivery(t, s.store.headIndex + j, P.Contents(s)[j])
  }

  lemma TakesFront(s: P.State, s': P.State, t: Tid, count: nat)
    requires s.store.headIndex + count <= s.store.tailIndex == |s.store.enqueued|
    requires Done(s.store, s'.store, t) && s'.store.headIndex == s.store.headIndex + count
    requires s'.store.log == s.store.log + Deliveries(s.store.enqueued, t, s.store.headIndex, s.store.headIndex + count)
    ensures Took(s, s', t, count)
  {
  }

  /** A dequeue that no other step disturbs takes elements from the front, in order, as many as it
      asked for, or as the counters leave it while others have calls in progress; and changes nothing
      in the storage if it takes none. With no other dequeue in progress it takes all it asked for, or
      all there are. */
  lemma DequeuesFront(s: P.State, t: Tid, max: nat)
    requires P.Inv(s) && Ready(s, t) && max > 0
    ensures var s' := Dequeued(s, t, max);
            var count := Count(s.tickets, s'.tickets);
            && P.Inv(s') && ClaimsSome(s.tickets, s'.tickets, t, max) && Done(s.store, s'.store, t)
            && count == T.Room(s.tickets, max) && Took(s, s', t, count) && (count == 0 ==> s'.store == s.store)
            && (AtRest(s) ==> AtRest(s') && count == if |P.Contents(s)| < max then |P.Contents(s)| else max)
  {
    hide S.Inv, T.Inv, Repeat, Claimed, S.Step, S.Enabled, Fetched, FrontClaimed, Took, P.Contents;
    ClaimsFront(s, t, max);
    EndsFit(s.store);
    var s2 := Claimed(s, t, max);
    var count := Count(s.tickets, s2.tickets);
    if count > 0 {
      Fetches(s, s2, t, max, count);
    } else {
      NothingToRepeat(s2, t, 5 * max + 3);
      TakesFront(s, s2, t, 0);
    }
  }

  lemma Fetches(s: P.State, s2: P.State, t: Tid, max: nat, count: nat)
    requires P.Inv(s) && P.Inv(s2) && Ready(s, t) && 0 < count <= max
    requires S.Enabled(s.store, S.Claim(t, count)) && s2.store == S.Step(s.store, S.Claim(t, count))
    ensures var s' := Repeat(s2, P.Consume(t), 5 * max + 3);
            P.Inv(s') && s'.tickets == s2.tickets && Done(s.store, s'.store, t) && Took(s, s', t, count)
  {
    hide S.Inv, T.Inv, Repeat, Fetched, FrontClaimed, Took, Placed;
    EndsFit(s.store);
    ClaimIsFront(s.store, t, count);
    FetchesAll(s2, t, 5 * max + 3);
    var s' := Repeat(s2, P.Consume(t), 5 * max + 3);
    assert t < |s'.store.threads| by { assert Fetched(s2.store, s'.store, t, 5 * max + 3); }
    StaysPlaced(s'.store, t);
    FetchesFront(s.store, s2.store, s'.store, t, count, 5 * max + 3);
    TakesFront(s, s', t, count);
  }
}
