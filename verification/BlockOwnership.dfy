/** No block of a producer's queue leaks: what SubQueue's invariant says of the blocks in use, the
other way round. A block that belongs to the queue is one that holds elements, one that a call in
progress has acquired, or one that a consumer is about to give back. */
module BlockOwnership {

  import opened BlockIndex
  import opened Collections
  import opened SubQueue

  /** Block b is where its owner says it is. */
  predicate OwnerTrue(o: Owner, b: Bid, home: seq<Bid>, cleared: set<nat>, p: Producer, threads: seq<Consumer>) {
    match o
    case Nobody => true
    case Number(k) =>
      if k < |home| then k !in cleared && home[k] == b
      else p.freed <= k - |home| < |p.chain| && p.chain[k - |home|] == b
    case Held => (p.at.PReset? || p.at.PValue?) && p.block == b
    case Leaving(t) => t < |threads| && threads[t].at.Release? && threads[t].block == b
  }

  ghost predicate OwnersTrue(s: State) {
    forall b | 0 <= b < |s.owner| :: OwnerTrue(s.owner[b], b, s.home, s.cleared, s.producer, s.threads)
  }

  lemma PlanKeepsOwners(s: State, memory: bool)
    requires ProducerSafe(s) && OwnersTrue(s) && Planning(s.producer.at)
    ensures OwnersTrue(PlanStep(s, memory))
  {
    var s' := PlanStep(s, memory);
    forall b | 0 <= b < |s'.owner| ensures OwnerTrue(s'.owner[b], b, s'.home, s'.cleared, s'.producer, s'.threads) {
      assert OwnerTrue(s.owner[b], b, s.home, s.cleared, s.producer, s.threads);
    }
  }

  lemma InsertKeepsOwners(s: State)
    requires ProducerSafe(s) && OwnersTrue(s) && (s.producer.at.PKey? || s.producer.at.PTail?)
    ensures OwnersTrue(InsertStep(s))
  {
    var s' := InsertStep(s);
    forall b | 0 <= b < |s'.owner| ensures OwnerTrue(s'.owner[b], b, s'.home, s'.cleared, s'.producer, s'.threads) {
      assert OwnerTrue(s.owner[b], b, s.home, s.cleared, s.producer, s.threads);
    }
  }

  lemma AcquireKeepsOwners(s: State, got: Option<Bid>)
    requires ProducerSafe(s) && OwnersTrue(s) && |s.home| == Blocks(s.tailIndex) && s.producer.freed == 0
    requires got.Some? ==> got.value < |s.owner| && s.owner[got.value] == Nobody
    requires s.producer.at.PRequisition? || s.producer.at.PReset? || s.producer.at.PValue?
    ensures OwnersTrue(AcquireStep(s, got))
  {
    var s' := AcquireStep(s, got);
    forall b | 0 <= b < |s'.owner| ensures OwnerTrue(s'.owner[b], b, s'.home, s'.cleared, s'.producer, s'.threads) {
      assert OwnerTrue(s.owner[b], b, s.home, s.cleared, s.producer, s.threads);
    }
  }

  lemma UndoKeepsOwners(s: State)
    requires ProducerSafe(s) && OwnersTrue(s) && Undoing(s.producer.at)
    requires OwnOk(s.owner, s.home, s.cleared, s.producer.chain, s.producer.freed)
    ensures OwnersTrue(UndoStep(s))
  {
    var s' := UndoStep(s);
    forall b | 0 <= b < |s'.owner| ensures OwnerTrue(s'.owner[b], b, s'.home, s'.cleared, s'.producer, s'.threads) {
      assert OwnerTrue(s.owner[b], b, s.home, s.cleared, s.producer, s.threads);
    }
  }

  lemma WriteKeepsOwners(s: State)
    requires ProducerSafe(s) && OwnersTrue(s) && s.producer.at.PWrite? && s.producer.freed == 0
    requires forall k <- s.cleared :: k < |s.home|
    ensures OwnersTrue(WriteStep(s))
  {
    var s' := WriteStep(s);
    forall b | 0 <= b < |s'.owner| ensures OwnerTrue(s'.owner[b], b, s'.home, s'.cleared, s'.producer, s'.threads) {
      assert OwnerTrue(s.owner[b], b, s.home, s.cleared, s.producer, s.threads);
    }
  }

  lemma ProduceKeepsOwners(s: State, memory: bool, got: Option<Bid>)
    requires Inv(s) && Enabled(s, Produce(memory, got)) && OwnersTrue(s)
    ensures ProducerSafe(s) && OwnersTrue(ProducerStep(s, memory, got))
  {
    StepKeepsInv(s, Produce(memory, got));
    hide IndexOk, ValuesOk, ContentsOk, ThreadsOk, CoverOk, LogOk, WrittenOk, ProducerIndexOk, ProducerSafe, OwnersTrue,
      PlanStep, InsertStep, AcquireStep, UndoStep, WriteStep;
    var at := s.producer.at;
    if Planning(at) { PlanKeepsOwners(s, memory); }
    else if at.PKey? || at.PTail? { InsertKeepsOwners(s); }
    else if at.PRequisition? || at.PReset? || at.PValue? { AcquireKeepsOwners(s, got); }
    else if at.PWrite? { WriteKeepsOwners(s); }
    else { UndoKeepsOwners(s); }
  }

  /** The steps of thread t that give back nothing, and take nothing. */
  lemma QuietKeepsOwners(s: State, s': State, t: Tid)
    requires OwnersTrue(s) && t < |s.threads| && !s.threads[t].at.Release?
    requires s'.owner == s.owner && s'.home == s.home && s'.cleared == s.cleared && s'.producer == s.producer
    requires |s'.threads| == |s.threads| && s'.threads == s.threads[t := s'.threads[t]]
    ensures OwnersTrue(s')
  {
  }

  lemma ClearKeepsOwners(s: State, t: Tid)
    requires Inv(s) && OwnersTrue(s) && t < |s.threads| && s.threads[t].at.Clear? && ConsumerSafe(s, s.threads[t])
    ensures OwnersTrue(ClearStep(s, t))
  {
    hide IndexOk, ValuesOk, ContentsOk, CoverOk, LogOk, WrittenOk, ProducerIndexOk, ProducerOk, CountsOk, LookupOk;
    var s', th := ClearStep(s, t), s.threads[t];
    assert ThreadOk(s, t);
    forall b | 0 <= b < |s'.owner| ensures OwnerTrue(s'.owner[b], b, s'.home, s'.cleared, s'.producer, s'.threads) {
      assert OwnerTrue(s.owner[b], b, s.home, s.cleared, s.producer, s.threads);
    }
  }

  lemma ReleaseKeepsOwners(s: State, t: Tid)
    requires OwnersTrue(s) && t < |s.threads| && s.threads[t].at.Release? && ConsumerSafe(s, s.threads[t])
    ensures OwnersTrue(ReleaseStep(s, t))
  {
  }

  lemma ConsumeKeepsOwners(s: State, t: Tid)
    requires Inv(s) && Enabled(s, Consume(t)) && OwnersTrue(s)
    ensures ConsumerSafe(s, s.threads[t]) && OwnersTrue(ConsumerStep(s, t))
  {
    hide Inv, ConsumerSafe, OwnersTrue, ClearStep, ReleaseStep, SetSlot, Onward;
    StepKeepsInv(s, Consume(t));
    var at := s.threads[t].at;
    if at.Clear? { ClearKeepsOwners(s, t); }
    else if at.Release? { ReleaseKeepsOwners(s, t); }
    else { QuietKeepsOwners(s, ConsumerStep(s, t), t); }
  }

  lemma EnqueueKeepsOwners(s: State, items: seq<Metric>)
    requires OwnersTrue(s) && s.producer.at.PIdle? && s.producer.chain == []
    ensures OwnersTrue(Step(s, Enqueue(items)))
  {
  }

  lemma StepKeepsOwners(s: State, a: Action)
    requires Inv(s) && Enabled(s, a) && OwnersTrue(s)
    ensures Safe(s, a) && OwnersTrue(Step(s, a))
  {
    StepKeepsInv(s, a);
    if a.Produce? { ProduceKeepsOwners(s, a.memory, a.got); }
    else if a.Consume? { ConsumeKeepsOwners(s, a.t); }
    else if a.Enqueue? { EnqueueKeepsOwners(s, a.items); }
    else if a.Claim? {
      hide Inv;
      QuietKeepsOwners(s, Step(s, a), a.t);
    }
  }

  /** Block b holds elements, was acquired by the enqueue in progress, or is about to be given back by
      a consumer. */
  predicate Uses(s: State, b: Bid) {
    || (exists k :: 0 <= k < |s.home| && k !in s.cleared && s.home[k] == b)
    || (exists x :: s.producer.freed <= x < |s.producer.chain| && s.producer.chain[x] == b)
    || ((s.producer.at.PReset? || s.producer.at.PValue?) && s.producer.block == b)
    || (exists t :: 0 <= t < |s.threads| && s.threads[t].at.Release? && s.threads[t].block == b)
  }

  /** The queue's own blocks are those it uses. */
  lemma OwnedIsUsed(s: State, b: Bid)
    requires Inv(s) && OwnersTrue(s) && b < |s.owner|
    ensures s.owner[b] != Nobody <==> Uses(s, b)
  {
    hide IndexOk, ValuesOk, FreeOk, CountsOk, ContentsOk, CoverOk, LogOk, WrittenOk, ProducerOk, LookupOk, PlaceOk, ProgressOk;
    assert OwnerTrue(s.owner[b], b, s.home, s.cleared, s.producer, s.threads);
    forall t | 0 <= t < |s.threads| && s.threads[t].at.Release? ensures s.threads[t].block < |s.owner| && s.owner[s.threads[t].block] == Leaving(t) {
      assert ThreadOk(s, t);
    }
  }

  // ----- what one producer's queue does to the others

  /** Block b is in the pool or this queue's own. */
  predicate InReach(s: State, b: Bid) {
    b < |s.owner| && (b in s.free || s.owner[b] != Nobody)
  }

  /** Only blocks that are the queue's own are written; a block becomes its own by leaving the pool,
      and when it stops being its own it is in the pool again. */
  ghost predicate Guarantees(s: State, s': State) {
    && |s'.blocks| == |s.blocks| == |s.owner| == |s'.owner|
    && (forall b | 0 <= b < |s.blocks| && s.owner[b] == Nobody :: s'.blocks[b] == s.blocks[b])
    && (forall b <- s'.free :: b < |s.owner|)
    && (forall b: Bid :: InReach(s', b) <==> InReach(s, b))
  }

  lemma PlanGuarantees(s: State, memory: bool)
    requires Shape(s) && ProducerSafe(s) && FreeOk(s.free, s.owner)
    ensures Guarantees(s, PlanStep(s, memory)) && Guarantees(s, InsertStep(s))
  {
  }

  lemma AcquireGuarantees(s: State, got: Option<Bid>)
    requires Shape(s) && ProducerSafe(s) && ProducerIndexOk(s) && FreeOk(s.free, s.owner)
    requires got.Some? ==> got.value in s.free && got.value < |s.owner|
    ensures Guarantees(s, AcquireStep(s, got))
  {
  }

  lemma UndoGuarantees(s: State)
    requires Shape(s) && ProducerSafe(s) && FreeOk(s.free, s.owner)
    requires OwnOk(s.owner, s.home, s.cleared, s.producer.chain, s.producer.freed)
    ensures Guarantees(s, UndoStep(s))
  {
  }

  lemma WriteGuarantees(s: State)
    requires MemoryOk(s) && ProducerOk(s) && ProducerSafe(s) && s.producer.at.PWrite?
    ensures Guarantees(s, WriteStep(s))
  {
    hide IndexOk, ValuesOk, CountsOk, ContentsOk, Target;
    if s.producer.written < |s.producer.items| { TargetIsHome(s, s.producer.written); }
  }

  lemma ProduceGuarantees(s: State, memory: bool, got: Option<Bid>)
    requires Inv(s) && Enabled(s, Produce(memory, got))
    ensures ProducerSafe(s) && Guarantees(s, ProducerStep(s, memory, got))
  {
    StepKeepsInv(s, Produce(memory, got));
    hide IndexOk, ValuesOk, OwnOk, FreeOk, CountsOk, ContentsOk, ThreadsOk, CoverOk, LogOk, WrittenOk, ProducerOk,
      ProducerIndexOk, PlanStep, InsertStep, AcquireStep, UndoStep, WriteStep, ProducerSafe, Guarantees;
    PlanGuarantees(s, memory);
    AcquireGuarantees(s, got);
    UndoGuarantees(s);
    if s.producer.at.PWrite? { WriteGuarantees(s); }
  }

  lemma WorkingBlock(s: State, t: Tid)
    requires Inv(s) && t < |s.threads|
    requires var at := s.threads[t].at; at.Read? || at.Count? || at.Clear? || at.Release?
    ensures var b := s.threads[t].block; b < |s.owner| && s.owner[b] != Nobody
  {
    hide IndexOk, ValuesOk, FreeOk, CountsOk, ContentsOk, CoverOk, LogOk, WrittenOk, ProducerOk, ProducerIndexOk, LookupOk;
    assert ThreadOk(s, t);
  }

  lemma ConsumerGuarantees(s: State, t: Tid)
    requires Shape(s) && t < |s.threads| && ConsumerSafe(s, s.threads[t]) && FreeOk(s.free, s.owner)
    requires var th := s.threads[t];
             th.at.Read? || th.at.Count? || th.at.Clear? || th.at.Release? ==> th.block < |s.owner| && s.owner[th.block] != Nobody
    ensures Guarantees(s, ConsumerStep(s, t))
  {
  }

  lemma ConsumeGuarantees(s: State, t: Tid)
    requires Inv(s) && Enabled(s, Consume(t))
    ensures ConsumerSafe(s, s.threads[t]) && Guarantees(s, ConsumerStep(s, t))
  {
    hide IndexOk, ValuesOk, OwnOk, FreeOk, CountsOk, ContentsOk, ThreadsOk, CoverOk, LogOk, WrittenOk, ProducerOk, ProducerIndexOk,
      ConsumerStep, ConsumerSafe, Guarantees, Shape;
    StepKeepsInv(s, Consume(t));
    var at := s.threads[t].at;
    if at.Read? || at.Count? || at.Clear? || at.Release? { WorkingBlock(s, t); }
    ConsumerGuarantees(s, t);
  }

  lemma StepGuarantees(s: State, a: Action)
    requires Inv(s) && Enabled(s, a) && !a.Others?
    ensures Safe(s, a) && Guarantees(s, Step(s, a))
  {
    hide IndexOk, ValuesOk, OwnOk, CountsOk, ContentsOk, ThreadsOk, CoverOk, LogOk, WrittenOk, ProducerOk, ProducerIndexOk,
      ConsumerStep, ProducerStep, ConsumerSafe, ProducerSafe;
    if a.Produce? { ProduceGuarantees(s, a.memory, a.got); }
    else if a.Consume? { ConsumeGuarantees(s, a.t); }
  }

  /** Two queues that take blocks from the same pool, and have none in common. */
  ghost predicate Share(s: State, u: State) {
    && s.blocks == u.blocks && s.free == u.free && |s.owner| == |u.owner|
    && (forall b | 0 <= b < |s.owner| :: s.owner[b] == Nobody || u.owner[b] == Nobody)
  }

  /** A step of one queue is no more than the other one puts up with (`Others`), and they still have
      no block in common. */
  lemma StepsFit(s: State, u: State, a: Action)
    requires Inv(s) && Inv(u) && Share(s, u) && Enabled(s, a) && !a.Others?
    ensures Safe(s, a)
    ensures var s' := Step(s, a);
            && Enabled(u, SubQueue.Others(s'.blocks, s'.free)) && Share(s', Step(u, SubQueue.Others(s'.blocks, s'.free)))
  {
    hide Inv, Share, Guarantees, OthersMay, FreeOk, ProducerStep, ConsumerStep, ProducerSafe, ConsumerSafe;
    StepKeepsInv(s, a);
    StepGuarantees(s, a);
    PoolShape(s);
    PoolShape(u);
    PoolShape(Step(s, a));
    PoolFits(s, u, Step(s, a));
  }

  lemma PoolShape(s: State)
    requires Inv(s)
    ensures |s.owner| == |s.blocks| && (forall b | 0 <= b < |s.blocks| :: |s.blocks[b].slots| == BLOCK_SIZE)
    ensures FreeOk(s.free, s.owner)
  {
  }

  lemma PoolFits(s: State, u: State, s': State)
    requires Share(s, u) && Guarantees(s, s') && FreeOk(u.free, u.owner) && |u.owner| == |u.blocks|
    requires forall b | 0 <= b < |s'.blocks| :: |s'.blocks[b].slots| == BLOCK_SIZE
    ensures OthersMay(u, s'.blocks, s'.free) && Share(s', u.(blocks := s'.blocks, free := s'.free))
  {
    forall b <- s'.free ensures b < |u.owner| && u.owner[b] == Nobody { assert InReach(s', b) && InReach(s, b); }
    forall b | 0 <= b < |s'.owner| ensures s'.owner[b] == Nobody || u.owner[b] == Nobody {
      assert InReach(s', b) <==> InReach(s, b);
    }
  }
}
