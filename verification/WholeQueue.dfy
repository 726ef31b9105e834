/** The whole queue as callers without tokens use it (ConcurrentQueue): one implicit producer for
every thread that enqueues, all of them taking their blocks from one pool, and consumers that may
take from any of them. */
module WholeQueue {

  import opened Collections

  import T = Tickets
  import S = SubQueue
  import O = BlockOwnership
  import P = ProducerQueue
  import L = LoneDequeue

  type Metric = S.Metric
  type Tid = nat

  /** In the order of the list that starts at producerListTail. */
  type Producers = seq<P.State>

  // ----- all producers together

  predicate Enabled(q: Producers, i: nat, a: P.Action) {
    i < |q| && !a.Others? && P.Enabled(q[i], a)
  }

  /** A producer's state with the pool as another one left it. */
  function Told(s: P.State, pool: S.State): P.State {
    s.(store := s.store.(blocks := pool.blocks, free := pool.free))
  }

  /** Producer i moves on to the state s, and the others see what that did to the pool. */
  function Put(q: Producers, i: nat, s: P.State): (r: Producers)
    ensures |r| == |q|
    ensures forall j | 0 <= j < |q| :: r[j] == if j == i then s else Told(q[j], s.store)
  {
    seq(|q|, j requires 0 <= j < |q| => if j == i then s else Told(q[j], s.store))
  }

  function Step(q: Producers, i: nat, a: P.Action): Producers
    requires Enabled(q, i, a) && P.Safe(q[i], a)
  {
    Put(q, i, P.Step(q[i], a))
  }

  /** Every producer is in order, and no two have a block in common. */
  ghost predicate Inv(q: Producers) {
    && (forall i | 0 <= i < |q| :: P.Inv(q[i]))
    && (forall i, j | 0 <= i < |q| && 0 <= j < |q| && i != j :: O.Share(q[i].store, q[j].store))
  }

  /** In the beginning the pool has all the blocks there are, or malloc will ever give. */
  ghost predicate Init(q: Producers) {
    && (forall i, b | 0 <= i < |q| && 0 <= b < |q[i].store.blocks| :: b in q[i].store.free)
    && (forall i | 0 <= i < |q| :: P.Init(q[i]))
    && (forall i, j | 0 <= i < |q| && 0 <= j < |q| :: q[i].store.blocks == q[j].store.blocks && q[i].store.free == q[j].store.free)
  }

  lemma InitHasInv(q: Producers)
    requires Init(q)
    ensures Inv(q)
  {
    forall i | 0 <= i < |q| ensures P.Inv(q[i]) { P.InitHasInv(q[i]); }
    hide P.Inv, T.Init;
  }

  /** What a step of one producer is to its storage. */
  lemma StoreSteps(s: P.State, a: P.Action, u: S.State)
    requires P.Inv(s) && S.Inv(u) && O.Share(s.store, u) && P.Enabled(s, a) && !a.Others?
    ensures P.Safe(s, a)
    ensures var s' := P.Step(s, a).store;
            && S.Enabled(u, S.Others(s'.blocks, s'.free))
            && O.Share(s', u.(blocks := s'.blocks, free := s'.free))
  {
    hide S.Inv, T.Inv, O.OwnersTrue, O.Share, S.ConsumerSafe, S.ProducerSafe, S.ConsumerStep, S.ProducerStep, S.OthersMay;
    P.StepKeepsInv(s, a);
    match a
    case Enqueue(items) => O.StepsFit(s.store, u, S.Enqueue(items));
    case Produce(memory, got) => O.StepsFit(s.store, u, S.Produce(memory, got));
    case Consume(t) => O.StepsFit(s.store, u, S.Consume(t));
    case Draw(t) =>
      if P.Claims(s, t) { O.StepsFit(s.store, u, S.Claim(t, s.tickets.threads[t].actual)); } else { SharingFits(s.store, u); }
    case Dequeue(t, max) => SharingFits(s.store, u);
    case Others(_, _) =>
  }

  lemma SharingFits(s: S.State, u: S.State)
    requires S.Inv(u) && O.Share(s, u)
    ensures S.Enabled(u, S.Others(s.blocks, s.free)) && u == u.(blocks := s.blocks, free := s.free)
  {
  }

  lemma StepKeepsInv(q: Producers, i: nat, a: P.Action)
    requires Inv(q) && Enabled(q, i, a)
    ensures P.Safe(q[i], a) && Inv(Step(q, i, a))
  {
    hide P.Inv, P.Enabled, P.Safe, P.Step, O.Share;
    P.StepKeepsInv(q[i], a);
    var q' := Step(q, i, a);
    forall j | 0 <= j < |q| && j != i ensures P.Inv(q'[j]) && O.Share(q'[i].store, q'[j].store) && O.Share(q'[j].store, q'[i].store) {
      TellKeepsInv(q[i], a, q[j]);
    }
    forall j, k | 0 <= j < |q| && 0 <= k < |q| && j != k ensures O.Share(q'[j].store, q'[k].store) {
      if j != i && k != i { BothTold(q[j].store, q[k].store, q'[i].store); }
    }
  }

  lemma BothTold(s: S.State, u: S.State, pool: S.State)
    requires O.Share(s, u)
    ensures O.Share(s.(blocks := pool.blocks, free := pool.free), u.(blocks := pool.blocks, free := pool.free))
  {
  }

  lemma TellKeepsInv(s: P.State, a: P.Action, u: P.State)
    requires P.Inv(s) && P.Inv(u) && O.Share(s.store, u.store) && P.Enabled(s, a) && !a.Others?
    ensures P.Safe(s, a)
    ensures var pool := P.Step(s, a).store;
            && P.Enabled(u, P.Others(pool.blocks, pool.free)) && Told(u, pool) == P.Step(u, P.Others(pool.blocks, pool.free))
            && P.Inv(Told(u, pool)) && O.Share(pool, Told(u, pool).store) && O.Share(Told(u, pool).store, pool)
  {
    hide S.Inv, T.Inv, O.OwnersTrue, S.ConsumerSafe, S.ProducerSafe, S.ConsumerStep, S.ProducerStep, S.OthersMay;
    StoreSteps(s, a, u.store);
    var pool := P.Step(s, a).store;
    P.StepKeepsInv(u, P.Others(pool.blocks, pool.free));
  }

  // ----- whole runs

  /** The state after a schedule of steps, each of some producer's queue; what is not enabled when its
      turn comes is skipped. */
  function Run(q: Producers, schedule: seq<(nat, P.Action)>): (r: Producers)
    ensures |r| == |q|
  {
    if schedule == [] then q
    else
      var before := Run(q, schedule[..|schedule| - 1]);
      var (i, a) := schedule[|schedule| - 1];
      if Enabled(before, i, a) && P.Safe(before[i], a) then Step(before, i, a) else before
  }

  lemma {:induction false} RunKeepsInv(q: Producers, schedule: seq<(nat, P.Action)>)
    requires Inv(q)
    ensures Inv(Run(q, schedule))
  {
    hide Inv, Enabled, P.Safe, Step;
    if schedule != [] {
      RunKeepsInv(q, schedule[..|schedule| - 1]);
      var before := Run(q, schedule[..|schedule| - 1]);
      var (i, a) := schedule[|schedule| - 1];
      if Enabled(before, i, a) { StepKeepsInv(before, i, a); }
    }
  }

  /** What producer j's queue goes through in such a run: its own steps, and what the others do to
      the pool. */
  function View(q: Producers, schedule: seq<(nat, P.Action)>, j: nat): seq<P.Action> {
    if schedule == [] then []
    else
      var before := Run(q, schedule[..|schedule| - 1]);
      var (i, a) := schedule[|schedule| - 1];
      View(q, schedule[..|schedule| - 1], j) +
      if !(Enabled(before, i, a) && P.Safe(before[i], a)) then []
      else if i == j then [a]
      else [P.Others(P.Step(before[i], a).store.blocks, P.Step(before[i], a).store.free)]
  }

  lemma OneMore(s: P.State, view: seq<P.Action>, a: P.Action)
    ensures var before := P.Run(s, view);
            P.Run(s, view + [a]) == if P.Enabled(before, a) && P.Safe(before, a) then P.Step(before, a) else before
  {
    assert (view + [a])[..|view + [a]| - 1] == view;
  }

  /** The producers' queues are independent: in every run of them all, each one goes through a run of
      its own. So all that ProducerQueue proves holds of each of them, whatever the others do. */
  lemma {:induction false} EachRunsOnItsOwn(q: Producers, schedule: seq<(nat, P.Action)>, j: nat)
    requires Inv(q) && j < |q|
    ensures Run(q, schedule)[j] == P.Run(q[j], View(q, schedule, j))
  {
    if schedule != [] {
      hide P.Inv, P.Enabled, P.Safe, P.Step, O.Share, P.Run;
      var rest := schedule[..|schedule| - 1];
      var before := Run(q, rest);
      var (i, a) := schedule[|schedule| - 1];
      EachRunsOnItsOwn(q, rest, j);
      RunKeepsInv(q, rest);
      var view := View(q, rest, j);
      if Enabled(before, i, a) && P.Safe(before[i], a) {
        var next := if i == j then a else P.Others(P.Step(before[i], a).store.blocks, P.Step(before[i], a).store.free);
        assert View(q, schedule, j) == view + [next];
        OneMore(q[j], view, next);
        if i != j { TellKeepsInv(before[i], a, before[j]); P.StepKeepsInv(before[j], next); }
      } else {
        assert View(q, schedule, j) == view;
      }
    }
  }

  /** Conservation for the whole queue: when no consumer is at work, what was taken from every
      producer and what remains there are together what it enqueued. */
  lemma NothingLost(q: Producers, schedule: seq<(nat, P.Action)>, j: nat)
    requires Init(q) && j < |q| && P.NoneInHand(Run(q, schedule)[j].store)
    ensures var s := Run(q, schedule)[j];
            multiset(P.Values(s.store.log)) + multiset(P.Contents(s)) == multiset(s.store.enqueued)
  {
    hide P.Init, P.Inv, P.Values, P.Contents, P.Run;
    InitHasInv(q);
    EachRunsOnItsOwn(q, schedule, j);
    P.Conservation(q[j], View(q, schedule, j));
  }

  // ----- the blocks

  /** Block b is in the pool, or in use by a producer's queue. */
  ghost predicate Placed(q: Producers, b: nat) {
    forall i | 0 <= i < |q| :: b < |q[i].store.owner| ==> b in q[i].store.free || exists j :: 0 <= j < |q| && Owns(q[j].store, b)
  }

  predicate Owns(s: S.State, b: nat) {
    b < |s.owner| && s.owner[b] != S.Nobody
  }

  lemma StepPlaces(q: Producers, i: nat, a: P.Action, b: nat)
    requires Inv(q) && Enabled(q, i, a) && P.Safe(q[i], a) && Placed(q, b)
    ensures Placed(Step(q, i, a), b)
  {
    hide P.Inv, P.Enabled, P.Safe, P.Step;
    StepKeepsInv(q, i, a);
    P.StepGuarantees(q[i], a);
    var q' := Step(q, i, a);
    var s, s' := q[i].store, q'[i].store;
    assert O.InReach(s', b) <==> O.InReach(s, b);
    forall k | 0 <= k < |q'| && b < |q'[k].store.owner|
      ensures b in q'[k].store.free || exists j :: 0 <= j < |q'| && Owns(q'[j].store, b)
    {
      assert k != i ==> q'[k] == Told(q[k], s') && O.Share(q[k].store, s);
      if b !in q[k].store.free {
        var j :| 0 <= j < |q| && Owns(q[j].store, b);
        if j != i { assert q'[j] == Told(q[j], s') && Owns(q'[j].store, b); }
      }
      if O.InReach(s, b) { assert b in s'.free || Owns(s', b); }
    }
  }

  lemma {:induction false} RunPlaces(q: Producers, schedule: seq<(nat, P.Action)>, b: nat)
    requires Init(q)
    ensures Inv(Run(q, schedule)) && Placed(Run(q, schedule), b)
  {
    hide Inv, Enabled, P.Safe, Step, Placed, Init;
    InitHasInv(q);
    RunKeepsInv(q, schedule);
    if schedule == [] {
      FirstPlaced(q, b);
    } else {
      RunPlaces(q, schedule[..|schedule| - 1], b);
      var before := Run(q, schedule[..|schedule| - 1]);
      var (i, a) := schedule[|schedule| - 1];
      if Enabled(before, i, a) {
        StepKeepsInv(before, i, a);
        StepPlaces(before, i, a, b);
      }
    }
  }

  lemma FirstPlaced(q: Producers, b: nat)
    requires Init(q)
    ensures Placed(q, b)
  {
    hide P.Inv, T.Init;
  }

  lemma InPoolUnused(s: P.State, b: nat)
    requires P.Inv(s) && b < |s.store.owner|
    ensures Owns(s.store, b) <==> O.Uses(s.store, b)
    ensures b in s.store.free ==> !Owns(s.store, b)
  {
    O.OwnedIsUsed(s.store, b);
    O.PoolShape(s.store);
    hide P.Inv;
  }

  /** Conservation of blocks: in every run each block is in the pool or in use by exactly one
      producer's queue: it holds elements, was acquired by an enqueue in progress, or is about to be
      given back by a consumer. */
  lemma EveryBlockInOnePlace(q: Producers, schedule: seq<(nat, P.Action)>, i: nat, b: nat)
    requires Init(q) && i < |q| && b < |Run(q, schedule)[i].store.owner|
    ensures var r := Run(q, schedule);
            && (b in r[i].store.free <==> forall j | 0 <= j < |r| :: !O.Uses(r[j].store, b))
            && (forall j, k | 0 <= j < |r| && 0 <= k < |r| && O.Uses(r[j].store, b) && O.Uses(r[k].store, b) :: j == k)
            && (forall j | 0 <= j < |r| :: r[j].store.free == r[i].store.free && |r[j].store.owner| == |r[i].store.owner|)
  {
    hide P.Inv, O.Uses, Init;
    RunPlaces(q, schedule, b);
    var r := Run(q, schedule);
    forall j | 0 <= j < |r| ensures r[j].store.free == r[i].store.free && |r[j].store.owner| == |r[i].store.owner| {
      assert j != i ==> O.Share(r[j].store, r[i].store);
    }
    forall j | 0 <= j < |r| ensures (Owns(r[j].store, b) <==> O.Uses(r[j].store, b)) && (b in r[i].store.free ==> !Owns(r[j].store, b)) {
      InPoolUnused(r[j], b);
    }
    forall j, k | 0 <= j < |r| && 0 <= k < |r| && O.Uses(r[j].store, b) && O.Uses(r[k].store, b) ensures j == k {
      assert j != k ==> O.Share(r[j].store, r[k].store);
    }
  }

  // ----- try_dequeue

  /** An undisturbed dequeue from producer i. */
  function DequeuedAt(q: Producers, i: nat, t: Tid): Producers
    requires i < |q|
  {
    Put(q, i, L.Dequeued(q[i], t, 1))
  }

  lemma PutTwice(q: Producers, i: nat, s: P.State, s': P.State)
    ensures Put(Put(q, i, s), i, s') == Put(q, i, s')
  {
  }

  lemma TryFits(q: Producers, i: nat, s: P.State, a: P.Action)
    requires i < |q| && Inv(Put(q, i, s)) && !a.Others?
    ensures Inv(Put(q, i, L.Try(s, a)))
  {
    hide Inv, P.Enabled, P.Safe, P.Step;
    if P.Enabled(s, a) && P.Safe(s, a) {
      StepKeepsInv(Put(q, i, s), i, a);
      PutTwice(q, i, s, P.Step(s, a));
    }
  }

  lemma {:induction false} RepeatFits(q: Producers, i: nat, s: P.State, a: P.Action, n: nat)
    requires i < |q| && Inv(Put(q, i, s)) && !a.Others?
    ensures Inv(Put(q, i, L.Repeat(s, a, n)))
  {
    hide Inv, L.Try;
    if n > 0 {
      RepeatFits(q, i, s, a, n - 1);
      TryFits(q, i, L.Repeat(s, a, n - 1), a);
    }
  }

  lemma PutSame(q: Producers, i: nat)
    requires Inv(q) && i < |q|
    ensures Put(q, i, q[i]) == q
  {
  }

  lemma DequeuedAtKeepsInv(q: Producers, i: nat, t: Tid)
    requires Inv(q) && i < |q|
    ensures Inv(DequeuedAt(q, i, t))
  {
    hide Inv, L.Try, L.Repeat;
    PutSame(q, i);
    TryFits(q, i, q[i], P.Dequeue(t, 1));
    var s1 := L.Try(q[i], P.Dequeue(t, 1));
    RepeatFits(q, i, s1, P.Draw(t), 5);
    RepeatFits(q, i, L.Repeat(s1, P.Draw(t), 5), P.Consume(t), 8);
  }

  /** size_approx */
  function Size(s: P.State): nat {
    if s.store.headIndex < s.store.tailIndex then s.store.tailIndex - s.store.headIndex else 0
  }

  /** How many of the first n producers' queues are not empty. */
  function NonEmpty(q: Producers, n: nat): nat
    requires n <= |q|
  {
    if n == 0 then 0 else NonEmpty(q, n - 1) + if Size(q[n - 1]) > 0 then 1 else 0
  }

  lemma {:induction false} NonEmptyGrows(q: Producers, m: nat, n: nat)
    requires m <= n <= |q|
    ensures NonEmpty(q, m) <= NonEmpty(q, n)
    ensures m < n && Size(q[m]) > 0 ==> NonEmpty(q, m) < NonEmpty(q, n)
  {
    if m < n { NonEmptyGrows(q, m, n - 1); }
  }

  /** Producer i is the fullest of the first three that are not empty, and the first such. */
  predicate Best(q: Producers, i: nat) {
    && i < |q| && Size(q[i]) > 0 && NonEmpty(q, i) < 3
    && forall j | 0 <= j < |q| && NonEmpty(q, j) < 3 :: Size(q[j]) < Size(q[i]) || (Size(q[j]) == Size(q[i]) && i <= j)
  }

  /** The calling thread has no call in progress; others may, and stand still. */
  predicate AllReady(q: Producers, t: Tid) {
    forall i | 0 <= i < |q| :: L.Ready(q[i], t)
  }

  predicate AllAtRest(q: Producers) {
    forall i | 0 <= i < |q| :: L.AtRest(q[i])
  }

  predicate AllEmpty(q: Producers) {
    forall i | 0 <= i < |q| :: P.Contents(q[i]) == []
  }

  /** Producer i's front element was taken by t, and nothing else. */
  predicate TookAt(q: Producers, q': Producers, i: nat, t: Tid, item: Metric) {
    && i < |q| == |q'| && P.Contents(q[i]) != [] && item == P.Contents(q[i])[0]
    && q'[i].store.log == q[i].store.log + [S.Delivery(t, q[i].store.headIndex, item)]
    && P.Contents(q'[i]) == P.Contents(q[i])[1..]
    && forall j | 0 <= j < |q| && j != i :: Untouched(q[j], q'[j])
  }

  predicate Untouched(s: P.State, s': P.State) {
    P.Contents(s') == P.Contents(s) && s'.store.log == s.store.log && s'.store.headIndex == s.store.headIndex
  }

  predicate NothingTaken(q: Producers, q': Producers) {
    |q'| == |q| && forall j | 0 <= j < |q| :: Untouched(q[j], q'[j])
  }

  lemma SizeIsLength(s: P.State)
    requires P.Inv(s)
    ensures Size(s) == |P.Contents(s)|
  {
    P.ContentsFit(s);
  }

  lemma AllSizesAreLengths(q: Producers)
    requires Inv(q)
    ensures forall i | 0 <= i < |q| :: Size(q[i]) == |P.Contents(q[i])|
  {
    hide P.Inv;
    forall i | 0 <= i < |q| ensures Size(q[i]) == |P.Contents(q[i])| { SizeIsLength(q[i]); }
  }

  /** What the method DequeueFrom reports. */
  predicate Outcome(q: Producers, q': Producers, i: nat, t: Tid, item: Option<Metric>) {
    if item.Some? then TookAt(q, q', i, t, item.value) else NothingTaken(q, q')
  }

  lemma DequeuedAtOutcome(q: Producers, i: nat, t: Tid)
    requires Inv(q) && i < |q| && AllReady(q, t)
    ensures var q' := DequeuedAt(q, i, t);
            var log, log' := q[i].store.log, q'[i].store.log;
            && Inv(q') && AllReady(q', t) && (AllAtRest(q) ==> AllAtRest(q')) && |log| <= |log'|
            && Outcome(q, q', i, t, if |log'| > |log| then Some(log'[|log|].value) else None)
            && (AllAtRest(q) ==> (|log'| > |log| <==> P.Contents(q[i]) != []))
  {
    hide P.Inv, L.Dequeued;
    L.DequeuesFront(q[i], t, 1);
    DequeuedAtKeepsInv(q, i, t);
  }

  class ConcurrentQueue {
    var producers: Producers

    constructor (producers: Producers)
      ensures this.producers == producers
    {
      this.producers := producers;
    }

    /** ImplicitProducer::dequeue */
    method DequeueFrom(i: nat, t: Tid) returns (item: Option<Metric>)
      requires Inv(producers) && i < |producers| && AllReady(producers, t)
      modifies this
      ensures Inv(producers) && AllReady(producers, t) && Outcome(old(producers), producers, i, t, item)
      ensures old(AllAtRest(producers)) ==> AllAtRest(producers) && (item.Some? <==> P.Contents(old(producers[i])) != [])
    {
      DequeuedAtOutcome(producers, i, t);
      var log := producers[i].store.log;
      producers := DequeuedAt(producers, i, t);
      var log' := producers[i].store.log;
      item := if |log'| > |log| then Some(log'[|log|].value) else None;
    }

    /** The scoring loop of try_dequeue: it looks no further than three producers that are not
        empty. */
    method FindBest() returns (nonEmptyCount: nat, best: nat)
      ensures nonEmptyCount == 0 ==> forall j | 0 <= j < |producers| :: Size(producers[j]) == 0
      ensures nonEmptyCount > 0 ==> Best(producers, best)
    {
      var bestSize: nat := 0;
      nonEmptyCount, best := 0, 0;
      var p := 0;
      while nonEmptyCount < 3 && p < |producers|
        invariant p <= |producers| && nonEmptyCount == NonEmpty(producers, p) && nonEmptyCount <= 3
        invariant forall j | 0 <= j < p :: NonEmpty(producers, j) < 3
        invariant nonEmptyCount == 0 ==> bestSize == 0
        invariant nonEmptyCount > 0 ==> best < p && bestSize == Size(producers[best]) > 0
        invariant forall j | 0 <= j < p :: Size(producers[j]) < bestSize || (Size(producers[j]) == bestSize && (bestSize == 0 || best <= j))
      {
        var size := Size(producers[p]);
        if size > 0 {
          if size > bestSize {
            bestSize, best := size, p;
          }
          nonEmptyCount := nonEmptyCount + 1;
        }
        p := p + 1;
      }
      forall j | p <= j < |producers| ensures NonEmpty(producers, j) >= 3 { NonEmptyGrows(producers, p, j); }
    }

    /** try_dequeue, by a thread that no other disturbs meanwhile. It takes the front element of one
        producer's queue, or nothing; and if no other call is in progress it comes back empty-handed
        exactly if all the queues are empty, and otherwise takes from the best. */
    method TryDequeue(t: Tid) returns (item: Option<Metric>)
      requires Inv(producers) && AllReady(producers, t)
      modifies this
      ensures Inv(producers) && AllReady(producers, t)
      ensures item.None? ==> NothingTaken(old(producers), producers)
      ensures item.Some? ==> exists i :: TookAt(old(producers), producers, i, t, item.value)
      ensures old(AllAtRest(producers)) ==> (item.None? <==> AllEmpty(old(producers)))
      ensures old(AllAtRest(producers)) && item.Some? ==>
                exists i :: Best(old(producers), i) && TookAt(old(producers), producers, i, t, item.value)
    {
      hide Inv, AllReady, AllAtRest, P.Contents, NonEmpty, L.Dequeued, Size;
      item := None;
      AllSizesAreLengths(producers);
      var nonEmptyCount, best := FindBest();
      if nonEmptyCount > 0 {
        item := DequeueFrom(best, t);
        if item.Some? { return; }
        var p := 0;
        while p < |producers|
          invariant |producers| == |old(producers)| && Inv(producers) && AllReady(producers, t)
          invariant item.None? && NothingTaken(old(producers), producers) && !old(AllAtRest(producers))
        {
          if p != best {
            item := DequeueFrom(p, t);
            if item.Some? {
              assert TookAt(old(producers), producers, p, t, item.value);
              return;
            }
          }
          p := p + 1;
        }
      }
    }
  }
}
