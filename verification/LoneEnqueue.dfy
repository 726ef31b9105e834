/** One call of ImplicitProducer::enqueue_bulk during which nobody else moves: that it ends, when it
succeeds, and what a failing one leaves behind. */
module LoneEnqueue {

  import opened Collections

  import T = Tickets
  import S = SubQueue
  import B = BlockIndex
  import O = BlockOwnership
  import P = ProducerQueue

  type Metric = S.Metric

  /** Only the producer moves, until its call is over. */
  ghost predicate Alone(s: P.State, schedule: seq<P.Action>) {
    schedule == [] ||
    (Alone(s, schedule[..|schedule| - 1]) &&
     var before, a := P.Run(s, schedule[..|schedule| - 1]), schedule[|schedule| - 1];
     a.Produce? && (before.store.producer.at.PIdle? || P.Enabled(before, a)))
  }

  /** Memory for the index is never refused, and a block only when the pool has none. */
  ghost predicate Granted(s: P.State, schedule: seq<P.Action>) {
    schedule == [] ||
    (Granted(s, schedule[..|schedule| - 1]) &&
     var before, a := P.Run(s, schedule[..|schedule| - 1]), schedule[|schedule| - 1];
     a.Produce? ==> IsGranted(before.store, a.memory, a.got))
  }

  predicate IsGranted(s: S.State, memory: bool, got: Option<B.Bid>) {
    (s.producer.at.PGrow? ==> memory) && (s.producer.at.PRequisition? && got.None? ==> s.free == {})
  }

  /** What the call needs: no new block, or room for the new ones in the range of indices, an index,
      and as many blocks in the pool. */
  predicate CanEnqueue(s: S.State, count: nat) {
    var m := S.NewBlocks(s.tailIndex, count);
    m == 0 || ((S.Blocks(s.tailIndex) + m) * B.BLOCK_SIZE < s.headIndex + S.HALF && s.ix.headers != [] && m <= |s.free|)
  }

  // ----- the call ends

  /** How many blocks are still to be acquired. */
  function Wanted(s: S.State): int {
    S.NewBlocks(s.tailIndex, |s.producer.items|) - |s.producer.chain|
  }

  /** How many steps the call still takes, at most. */
  function StepsLeft(s: S.State): int {
    var p := s.producer;
    var acquiring := |p.items| + 3 * |p.chain| + 11 * Wanted(s);
    match p.at
    case PNext => acquiring + 14
    case PRoom => acquiring + 13
    case PGrow => acquiring + 12
    case PKey => acquiring + 11
    case PTail => acquiring + 10
    case PRequisition => acquiring + 9
    case PReset => acquiring + 8
    case PValue => acquiring + 7
    case PRewind => 3 * |p.chain| + 5
    case PNull => 3 * |p.chain| + 4
    case PUndo => 3 * |p.chain| - 2 * p.undone + 3
    case PUndoRewind => 3 * |p.chain| - 2 * p.undone + 4
    case PFree => |p.chain| - p.freed + 1
    case PWrite => |p.items| - p.written + 1
    case PIdle => 0
  }

  lemma SomeStepsLeft(s: S.State)
    requires S.ProducerOk(s)
    ensures s.producer.at.PIdle? || StepsLeft(s) > 0
  {
  }

  lemma PlanTaken(s: S.State, memory: bool)
    requires S.ProducerOk(s) && S.ProducerSafe(s) && S.Planning(s.producer.at)
    ensures StepsLeft(S.PlanStep(s, memory)) < StepsLeft(s)
  {
    hide S.ProducerSafe, B.Grow, B.NextEntry, B.HasRoom, S.NewBlocks, S.NextNumber;
  }

  lemma AcquireTaken(s: S.State, got: Option<B.Bid>)
    requires S.ProducerOk(s) && S.ProducerSafe(s) && (got.Some? ==> got.value < |s.owner|)
    requires s.producer.at.PRequisition? || s.producer.at.PReset? || s.producer.at.PValue?
    ensures StepsLeft(S.AcquireStep(s, got)) < StepsLeft(s)
  {
    hide S.ProducerSafe, B.StoreValue, S.NewBlocks, S.NextNumber;
  }

  lemma UndoTaken(s: S.State)
    requires S.ProducerOk(s) && S.ProducerSafe(s) && S.Undoing(s.producer.at)
    ensures StepsLeft(S.UndoStep(s)) < StepsLeft(s)
  {
    hide S.ProducerSafe, S.FoundEntry, B.StoreValue, B.Rewind, S.NewBlocks, S.NextNumber;
  }

  lemma StepTaken(s: S.State, memory: bool, got: Option<B.Bid>)
    requires S.ProducerOk(s) && S.ProducerSafe(s) && (got.Some? ==> got.value < |s.owner|) && !s.producer.at.PIdle?
    ensures StepsLeft(S.ProducerStep(s, memory, got)) < StepsLeft(s)
  {
    hide S.ProducerSafe, S.NextNumber, S.Target, B.StoreKey, B.StoreTail, S.SetSlot, S.NewBlocks, S.PlanStep, S.AcquireStep, S.UndoStep;
    var at := s.producer.at;
    if S.Planning(at) { PlanTaken(s, memory); }
    else if at.PRequisition? || at.PReset? || at.PValue? { AcquireTaken(s, got); }
    else if S.Undoing(at) { UndoTaken(s); }
  }

  // ----- what it leaves alone

  /** Consumers stand still, and together the pool and this queue have the same blocks. */
  ghost predicate Kept(s0: S.State, s: S.State) {
    && s.threads == s0.threads && s.cleared == s0.cleared && s.headIndex == s0.headIndex
    && forall b: B.Bid :: O.InReach(s, b) <==> O.InReach(s0, b)
  }

  lemma InUseAgain(s0: S.State, s: S.State, b: B.Bid)
    requires s0.producer.chain == s.producer.chain == [] && s0.producer.at.PIdle? && s.producer.at.PIdle?
    requires s.home == s0.home && s.cleared == s0.cleared && s.threads == s0.threads
    ensures O.Uses(s, b) <==> O.Uses(s0, b)
  {
  }

  lemma IdleHasNoChain(s: S.State)
    requires S.Inv(s) && s.producer.at.PIdle?
    ensures s.producer.chain == []
  {
  }

  /** A call that failed has put back every block it took. */
  lemma PoolAsBefore(s0: P.State, s: P.State)
    requires P.Inv(s0) && P.Inv(s) && Kept(s0.store, s.store) && P.Unseen(s0.store, s.store)
    requires s0.store.producer.at.PIdle? && s.store.producer.at.PIdle?
    ensures s.store.free == s0.store.free
  {
    hide S.Inv, T.Inv, O.OwnersTrue, O.Uses;
    IdleHasNoChain(s0.store);
    IdleHasNoChain(s.store);
    O.PoolShape(s0.store);
    O.PoolShape(s.store);
    forall b: B.Bid ensures b in s.store.free <==> b in s0.store.free {
      assert O.InReach(s.store, b) <==> O.InReach(s0.store, b);
      InUseAgain(s0.store, s.store, b);
      if b < |s0.store.owner| { O.OwnedIsUsed(s0.store, b); }
      if b < |s.store.owner| { O.OwnedIsUsed(s.store, b); }
    }
  }

  // ----- when it succeeds

  /** The blocks taken from the pool so far. */
  function Taken(p: S.Producer): nat {
    |p.chain| + if p.at.PReset? || p.at.PValue? then 1 else 0
  }

  /** How a call of enqueue_bulk with `count` elements that began in s0 stands if all is granted. */
  predicate Standing(s0: S.State, s: S.State, count: nat) {
    if s.producer.at.PIdle? then s.answer <==> CanEnqueue(s0, count)
    else if S.Undoing(s.producer.at) then !CanEnqueue(s0, count)
    else |s.free| + Taken(s.producer) == |s0.free| && (s.ix.headers == [] <==> s0.ix.headers == [])
  }

  predicate SameEnds(s0: S.State, s: S.State, count: nat) {
    s.tailIndex == s0.tailIndex && s.headIndex == s0.headIndex && |s.producer.items| == count
  }

  lemma PlanStands(s0: S.State, s: S.State, count: nat, memory: bool)
    requires S.ProducerOk(s) && S.ProducerSafe(s) && S.Planning(s.producer.at) && SameEnds(s0, s, count) && Standing(s0, s, count)
    requires s.producer.at.PGrow? ==> memory
    ensures Standing(s0, S.PlanStep(s, memory), count)
  {
    hide S.NewBlocks, B.NextEntry, B.HasRoom;
  }

  lemma InsertStands(s0: S.State, s: S.State, count: nat)
    requires S.ProducerSafe(s) && (s.producer.at.PKey? || s.producer.at.PTail?) && Standing(s0, s, count) && s.ix.headers != []
    requires S.InsertStep(s).ix.headers != []
    ensures Standing(s0, S.InsertStep(s), count)
  {
    hide CanEnqueue, B.StoreKey, B.StoreTail;
  }

  lemma AcquireStands(s0: S.State, s: S.State, count: nat, got: Option<B.Bid>)
    requires S.ProducerOk(s) && S.ProducerSafe(s) && SameEnds(s0, s, count) && Standing(s0, s, count)
    requires s.producer.at.PRequisition? || s.producer.at.PReset? || s.producer.at.PValue?
    requires if got.Some? then got.value in s.free && got.value < |s.owner| else s.producer.at.PRequisition? ==> s.free == {}
    ensures Standing(s0, S.AcquireStep(s, got), count)
  {
    hide S.NewBlocks;
  }

  lemma WriteStands(s0: S.State, s: S.State, count: nat)
    requires S.ProducerOk(s) && S.ProducerSafe(s) && s.producer.at.PWrite? && SameEnds(s0, s, count) && Standing(s0, s, count)
    requires s.producer.chain != [] ==> s.ix.headers != []
    ensures Standing(s0, S.WriteStep(s), count)
  {
    hide S.NewBlocks, S.Target, S.SetSlot;
  }

  lemma UndoStands(s0: S.State, s: S.State, count: nat)
    requires S.ProducerSafe(s) && S.Undoing(s.producer.at) && Standing(s0, s, count)
    ensures Standing(s0, S.UndoStep(s), count)
  {
    hide CanEnqueue, S.FoundEntry, B.StoreValue, B.Rewind;
  }

  lemma IndexKnown(s: S.State)
    requires S.Inv(s)
    ensures S.ProducerOk(s)
    ensures s.producer.chain != [] || (S.Inserting(s.producer.at) && !s.producer.at.PRoom?) ==> s.ix.headers != []
  {
    hide S.ProducerOk;
  }

  lemma StepStands(s0: S.State, s: S.State, count: nat, memory: bool, got: Option<B.Bid>)
    requires S.Inv(s) && S.Enabled(s, S.Produce(memory, got)) && S.ProducerSafe(s) && SameEnds(s0, s, count) && Standing(s0, s, count)
    requires IsGranted(s, memory, got)
    ensures Standing(s0, S.ProducerStep(s, memory, got), count)
  {
    S.StepKeepsInv(s, S.Produce(memory, got));
    hide S.Inv, S.ProducerSafe, S.ProducerOk, Standing, SameEnds, S.PlanStep, S.AcquireStep, S.WriteStep, S.UndoStep;
    IndexKnown(s);
    IndexKnown(S.ProducerStep(s, memory, got));
    var at := s.producer.at;
    if S.Planning(at) { PlanStands(s0, s, count, memory); }
    else if at.PKey? || at.PTail? { InsertStands(s0, s, count); }
    else if at.PRequisition? || at.PReset? || at.PValue? { AcquireStands(s0, s, count, got); }
    else if at.PWrite? { WriteStands(s0, s, count); }
    else { UndoStands(s0, s, count); }
  }

  // ----- the whole call

  /** The state after a step of the producer, or the same if its call is over. */
  lemma AloneStep(s0: S.State, s: P.State, a: P.Action)
    requires P.Inv(s) && a.Produce? && P.Enabled(s, a) && Kept(s0, s.store)
    ensures P.Safe(s, a)
    ensures var s' := P.Step(s, a); P.Inv(s') && Kept(s0, s'.store) && StepsLeft(s'.store) < StepsLeft(s.store)
  {
    hide S.Inv, T.Inv, O.OwnersTrue, S.ConsumerSafe, S.ProducerSafe, S.ConsumerStep, S.ProducerStep, StepsLeft, O.InReach;
    P.StepKeepsInv(s, a);
    P.StepGuarantees(s, a);
    P.ProducerLeaves(s.store, a.memory, a.got);
    IndexKnown(s.store);
    StepTaken(s.store, a.memory, a.got);
  }

  predicate Idle(s: P.State) {
    s.store.producer.at.PIdle?
  }

  lemma NothingToDo(s: P.State, a: P.Action)
    requires Idle(s) && a.Produce?
    ensures !P.Enabled(s, a)
  {
  }

  lemma {:induction false} AloneRuns(s0: S.State, s1: P.State, schedule: seq<P.Action>)
    requires P.Inv(s1) && Kept(s0, s1.store) && Alone(s1, schedule)
    ensures var s := P.Run(s1, schedule);
            P.Inv(s) && Kept(s0, s.store) && (Idle(s) || StepsLeft(s.store) + |schedule| <= StepsLeft(s1.store))
  {
    hide P.Inv, P.Enabled, P.Safe, P.Step, StepsLeft, Kept;
    if schedule != [] {
      AloneRuns(s0, s1, schedule[..|schedule| - 1]);
      var before, a := P.Run(s1, schedule[..|schedule| - 1]), schedule[|schedule| - 1];
      if P.Enabled(before, a) {
        AloneStep(s0, before, a);
        if Idle(before) { NothingToDo(before, a); }
      } else {
        assert Idle(before);
      }
    }
  }

  lemma AloneEnds(s0: S.State, s1: P.State, schedule: seq<P.Action>)
    requires P.Inv(s1) && Kept(s0, s1.store) && Alone(s1, schedule) && |schedule| >= StepsLeft(s1.store)
    ensures var s := P.Run(s1, schedule); P.Inv(s) && Kept(s0, s.store) && Idle(s)
  {
    hide S.Inv, T.Inv, O.OwnersTrue, StepsLeft, Kept, Alone, P.Run;
    AloneRuns(s0, s1, schedule);
    IndexKnown(P.Run(s1, schedule).store);
    SomeStepsLeft(P.Run(s1, schedule).store);
  }

  lemma {:induction false} GrantedStands(s0: P.State, items: seq<Metric>, schedule: seq<P.Action>)
    requires P.Inv(s0) && P.Enabled(s0, P.Enqueue(items)) && P.Safe(s0, P.Enqueue(items))
    requires var s1 := P.Step(s0, P.Enqueue(items)); Alone(s1, schedule) && Granted(s1, schedule)
    ensures Standing(s0.store, P.Run(P.Step(s0, P.Enqueue(items)), schedule).store, |items|)
  {
    P.StepKeepsInv(s0, P.Enqueue(items));
    var s1 := P.Step(s0, P.Enqueue(items));
    Started(s0, items);
    hide P.Inv, P.Enabled, P.Safe, P.Step, Kept, Standing;
    if schedule != [] {
      var rest, a := schedule[..|schedule| - 1], schedule[|schedule| - 1];
      GrantedStands(s0, items, rest);
      AloneRuns(s0.store, s1, rest);
      AloneIsSolo(s1, rest);
      P.BulkAllOrNothing(s0, items, rest);
      var before := P.Run(s1, rest);
      if P.Enabled(before, a) {
        P.StepKeepsInv(before, a);
        GrantedStep(s0, items, before, a);
      }
    }
  }

  lemma Started(s0: P.State, items: seq<Metric>)
    requires P.Inv(s0) && P.Enabled(s0, P.Enqueue(items)) && P.Safe(s0, P.Enqueue(items))
    ensures var s1 := P.Step(s0, P.Enqueue(items));
            && Idle(s0) && Kept(s0.store, s1.store) && Standing(s0.store, s1.store, |items|)
            && StepsLeft(s1.store) == |items| + 11 * S.NewBlocks(s0.store.tailIndex, |items|) + 14
  {
    hide S.Inv, T.Inv, O.OwnersTrue, S.NewBlocks;
  }

  lemma GrantedStep(s0: P.State, items: seq<Metric>, s: P.State, a: P.Action)
    requires P.Inv(s) && a.Produce? && P.Enabled(s, a) && P.Safe(s, a) && IsGranted(s.store, a.memory, a.got)
    requires Kept(s0.store, s.store) && P.CallState(s0.store, s.store, items) && Standing(s0.store, s.store, |items|)
    ensures Standing(s0.store, P.Step(s, a).store, |items|)
  {
    hide S.Inv, T.Inv, O.OwnersTrue, S.ProducerSafe, S.ProducerStep, Standing;
    StepStands(s0.store, s.store, |items|, a.memory, a.got);
  }

  lemma {:induction false} AloneIsSolo(s: P.State, schedule: seq<P.Action>)
    requires Alone(s, schedule)
    ensures P.NoEnqueue(schedule)
  {
    hide P.Run, P.Enabled;
    if schedule != [] {
      AloneIsSolo(s, schedule[..|schedule| - 1]);
      forall i | 0 <= i < |schedule| ensures !schedule[i].Enqueue? {
        if i < |schedule| - 1 { assert schedule[i] == schedule[..|schedule| - 1][i]; }
      }
    }
  }

  /** An enqueue_bulk during which nobody else moves ends after at most so many steps. If it returns
      true its elements have been appended; else the contents are as before, and so is the pool: every
      block it took is back. It returns true exactly if it was refused nothing; and if it is granted
      what there is, exactly if the call's needs were met when it began. */
  lemma EnqueuesExactly(s0: P.State, items: seq<Metric>, schedule: seq<P.Action>)
    requires P.Inv(s0) && P.Enabled(s0, P.Enqueue(items))
    requires P.Safe(s0, P.Enqueue(items)) && Alone(P.Step(s0, P.Enqueue(items)), schedule)
    requires |schedule| >= |items| + 11 * S.NewBlocks(s0.store.tailIndex, |items|) + 14
    ensures var s1 := P.Step(s0, P.Enqueue(items));
            var s := P.Run(s1, schedule);
            && s.store.producer.at.PIdle?
            && (if s.store.answer then P.Contents(s) == P.Contents(s0) + items
                else P.Contents(s) == P.Contents(s0) && s.store.free == s0.store.free)
            && (s.store.answer <==> !P.Refused(s1, schedule))
            && (Granted(s1, schedule) ==> (s.store.answer <==> CanEnqueue(s0.store, |items|)))
  {
    hide P.Inv, P.Enabled, P.Safe, P.Step, Kept, StepsLeft, Granted, Alone, CanEnqueue, S.NewBlocks, P.Refused, P.Contents,
      P.NoEnqueue, P.Run, P.Complete, P.Unseen;
    P.StepKeepsInv(s0, P.Enqueue(items));
    var s1 := P.Step(s0, P.Enqueue(items));
    var s := P.Run(s1, schedule);
    Started(s0, items);
    AloneEnds(s0.store, s1, schedule);
    AloneIsSolo(s1, schedule);
    P.BulkAllOrNothing(s0, items, schedule);
    CallEnded(s0, s, items);
    if Granted(s1, schedule) { GrantedStands(s0, items, schedule); }
  }

  lemma CallEnded(s0: P.State, s: P.State, items: seq<Metric>)
    requires P.Inv(s0) && P.Inv(s) && Idle(s0) && Idle(s) && Kept(s0.store, s.store) && P.CallState(s0.store, s.store, items)
    ensures if s.store.answer then P.Contents(s) == P.Contents(s0) + items
            else P.Contents(s) == P.Contents(s0) && s.store.free == s0.store.free
  {
    hide P.Inv, P.Contents;
    P.ContentsFit(s0);
    P.ContentsFit(s);
    if s.store.answer {
      P.EndsMove(s0, s, items, 0);
    } else {
      PoolAsBefore(s0, s);
      P.EndsMove(s0, s, [], 0);
    }
  }

  /** There is such a schedule, of any length. */
  lemma {:induction false} SomeoneGrants(s: P.State, n: nat) returns (schedule: seq<P.Action>)
    requires P.Inv(s)
    ensures |schedule| == n && Alone(s, schedule) && Granted(s, schedule)
  {
    hide P.Inv, P.Enabled;
    if n == 0 {
      schedule := [];
    } else {
      var rest := SomeoneGrants(s, n - 1);
      P.RunKeepsInv(s, rest);
      var before := P.Run(s, rest);
      var a := P.Produce(true, None);
      if before.store.free != {} {
        var b :| b in before.store.free;
        a := P.Produce(true, Some(b));
      }
      Grants(before, a);
      schedule := rest + [a];
      assert schedule[..n - 1] == rest;
    }
  }

  lemma Grants(s: P.State, a: P.Action)
    requires P.Inv(s) && a.Produce? && (a.got.Some? ==> a.got.value in s.store.free)
    ensures Idle(s) || P.Enabled(s, a)
  {
    O.PoolShape(s.store);
    hide P.Inv;
  }
}
