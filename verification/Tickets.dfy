/** The optimistic-ticket protocol by which consumers of one producer's queue claim indices
(ImplicitProducer::dequeue and dequeue_bulk), as a transition system.

Any number of threads dequeue while the producer moves the tail. `dequeue` is `dequeue_bulk` with
a maximum of one: both run the same atomic accesses with the same outcome, so one description
serves both. Counters are unbounded here; CircularIndex relates them to 64-bit words. */
module Tickets {

  import opened Arithmetic
  import opened Collections

  type Tid = nat

  /** The next instruction of a thread. */
  datatype Label =
    | Idle
    | LoadOvercommit   // tailIndex is loaded
    | LoadOptimistic   // ... and dequeueOvercommit; next the first test
    | TakeTicket       // dequeueOptimisticCount.fetch_add(desired)
    | ReloadTail       // load tailIndex again; the second test
    | PayBack          // dequeueOvercommit.fetch_add(desired - actual)
    | ClaimHead        // headIndex.fetch_add(actual)

  /** Local variables: the most elements wanted, the tail first seen, the overcommit seen, how
      many were asked for, the ticket drawn (myDequeueCount), how many were granted. */
  datatype Thread = Thread(at: Label, max: nat, tail: nat, over: nat, desired: nat, mine: nat, actual: nat)

  /** A finished claim of the indices first .. first + count - 1. */
  datatype Claim = Claim(t: Tid, first: nat, count: nat)

  /** The four counters and the threads. Auxiliary: the claims so far, and the ticket positions
      that were granted, that were refused, and, among these, those whose claim or pay-back has
      been carried out. */
  datatype State = State(
    tailIndex: nat, headIndex: nat, optimistic: nat, overcommit: nat, threads: seq<Thread>,
    claims: seq<Claim>, granted: set<nat>, refused: set<nat>, claimed: set<nat>, paid: set<nat>)

  datatype Action =
    | Enqueue(count: nat)
    | CallDequeue(t: Tid, max: nat)
    | Advance(t: Tid)

  predicate Enabled(s: State, a: Action) {
    match a
    case Enqueue(_) => true
    case CallDequeue(t, max) => t < |s.threads| && s.threads[t].at.Idle? && max > 0
    case Advance(t) => t < |s.threads| && !s.threads[t].at.Idle?
  }

  function Step(s: State, a: Action): State
    requires Enabled(s, a)
  {
    match a
    case Enqueue(count) => s.(tailIndex := s.tailIndex + count)
    case CallDequeue(t, max) => s.(threads := s.threads[t := Thread(LoadOvercommit, max, s.tailIndex, 0, 0, 0, 0)])
    case Advance(t) => AdvanceStep(s, t)
  }

  function AdvanceStep(s: State, t: Tid): State
    requires t < |s.threads| && !s.threads[t].at.Idle?
  {
    var th := s.threads[t];
    if th.at.LoadOvercommit? then
      s.(threads := s.threads[t := th.(at := LoadOptimistic, over := s.overcommit)])
    else if th.at.LoadOptimistic? then
      var room := th.tail - (s.optimistic - th.over);
      s.(threads := s.threads[t := if room > 0 then th.(at := TakeTicket, desired := Min(room, th.max)) else th.(at := Idle)])
    else if th.at.TakeTicket? then
      s.(optimistic := s.optimistic + th.desired,
         threads := s.threads[t := th.(at := ReloadTail, mine := s.optimistic)])
    else if th.at.ReloadTail? then
      var room := s.tailIndex - (th.mine - th.over);
      var actual := if room > 0 then Min(th.desired, room) else 0;
      s.(threads := s.threads[t := th.(at := if actual < th.desired then PayBack else ClaimHead, actual := actual)],
         granted := s.granted + Range(th.mine, th.mine + actual),
         refused := s.refused + Range(th.mine + actual, th.mine + th.desired))
    else if th.at.PayBack? then
      s.(overcommit := s.overcommit + if th.actual < th.desired then th.desired - th.actual else 0,
         paid := s.paid + Range(th.mine + th.actual, th.mine + th.desired),
         threads := s.threads[t := th.(at := if th.actual > 0 then ClaimHead else Idle)])
    else
      s.(headIndex := s.headIndex + th.actual,
         claimed := s.claimed + Range(th.mine, th.mine + th.actual),
         claims := s.claims + [Claim(t, s.headIndex, th.actual)],
         threads := s.threads[t := th.(at := Idle)])
  }

  predicate Init(s: State) {
    && s.tailIndex == s.headIndex == s.optimistic == s.overcommit == 0
    && s.claims == [] && s.granted == s.refused == s.claimed == s.paid == {}
    && (forall t | 0 <= t < |s.threads| :: s.threads[t].at.Idle?)
  }

  // ----- the invariant

  /** A thread has drawn the ticket positions from `mine` up to here, and not yet settled them. */
  function DrawnEnd(th: Thread): nat {
    if th.at.ReloadTail? || th.at.PayBack? then th.mine + th.desired
    else if th.at.ClaimHead? then th.mine + th.actual
    else th.mine
  }

  predicate Draws(th: Thread, p: nat) {
    th.mine <= p < DrawnEnd(th)
  }

  function Below(positions: set<nat>, p: nat): set<nat> {
    set q | q in positions && q < p
  }

  ghost predicate ThreadOk(s: State, th: Thread) {
    && (th.at.LoadOvercommit? || th.at.LoadOptimistic? ==> th.max > 0)
    && (th.at.LoadOptimistic? || th.at.TakeTicket? ==> th.over <= |s.refused|)
    && (th.at.TakeTicket? ==> th.desired > 0)
    && (th.mine < DrawnEnd(th) ==> DrawnEnd(th) <= s.optimistic)
    && (th.at.ReloadTail? ==>
          && 0 < th.desired && th.over <= |Below(s.refused, th.mine)|
          && (forall p | th.mine <= p < th.mine + th.desired :: p !in s.granted && p !in s.refused))
    && (th.at.PayBack? || th.at.ClaimHead? ==>
          && (th.at.ClaimHead? ==> 0 < th.actual)
          && (forall p | th.mine <= p < th.mine + th.actual :: p in s.granted && p !in s.claimed))
    && (th.at.PayBack? ==>
          && th.actual < th.desired
          && (forall p | th.mine + th.actual <= p < th.mine + th.desired :: p in s.refused && p !in s.paid))
  }

  /** Ticket positions: settled ones are counted by headIndex and dequeueOvercommit, and a
      granted position lies below the tail once the refused ones before it are discounted. */
  ghost predicate PositionsOk(s: State) {
    && s.claimed <= s.granted && s.paid <= s.refused && s.granted !! s.refused
    && (forall p <- s.granted :: p < s.optimistic)
    && (forall p <- s.refused :: p < s.optimistic)
    && |s.claimed| == s.headIndex
    && |s.paid| == s.overcommit
    && (forall p <- s.granted :: p < s.tailIndex + |Below(s.refused, p)|)
  }

  /** No position is drawn by two threads. */
  predicate Apart(a: Thread, b: Thread) {
    a.mine >= DrawnEnd(a) || b.mine >= DrawnEnd(b) || DrawnEnd(a) <= b.mine || DrawnEnd(b) <= a.mine
  }

  ghost predicate Disjoint(s: State) {
    forall t, u | 0 <= t < |s.threads| && 0 <= u < |s.threads| && t != u :: Apart(s.threads[t], s.threads[u])
  }

  ghost predicate Settled(s: State, p: nat) {
    p in s.claimed || p in s.paid || exists t | 0 <= t < |s.threads| :: Draws(s.threads[t], p)
  }

  /** The claims cover the indices from 0 up to headIndex, one after the other. */
  ghost predicate ClaimsTile(s: State) {
    && (forall j | 0 <= j < |s.claims| :: s.claims[j].count > 0 && s.claims[j].first + s.claims[j].count <= s.headIndex)
    && (forall j | 0 < j < |s.claims| :: s.claims[j].first == s.claims[j - 1].first + s.claims[j - 1].count)
    && (if s.claims == [] then s.headIndex == 0
        else s.claims[0].first == 0 && (var last := s.claims[|s.claims| - 1]; s.headIndex == last.first + last.count))
  }

  ghost predicate Inv(s: State) {
    && PositionsOk(s)
    && (forall t | 0 <= t < |s.threads| :: ThreadOk(s, s.threads[t]))
    && Disjoint(s)
    && ClaimsTile(s)
    && (forall p: nat | p < s.optimistic :: Settled(s, p))
  }

  // ----- the counting argument

  lemma Largest(positions: set<nat>) returns (m: nat)
    requires positions != {}
    ensures m in positions && forall p <- positions :: p <= m
  {
    m :| m in positions;
    var rest := positions - {m};
    assert positions == rest + {m};
    if rest != {} {
      var n := Largest(rest);
      if n > m { m := n; }
    }
  }

  /** No more positions are granted than there are elements. The largest granted position p has
      at most p + 1 positions up to it, the refused ones below it are not granted, and p lies
      below the tail once those are discounted. */
  lemma GrantsFit(s: State)
    requires PositionsOk(s)
    ensures |s.granted| <= s.tailIndex
  {
    if s.granted != {} {
      var p := Largest(s.granted);
      var refused := Below(s.refused, p);
      assert s.granted + refused <= Range(0, p + 1);
      SubsetSize(s.granted + refused, Range(0, p + 1));
      assert |s.granted + refused| == |s.granted| + |refused|;
    }
  }

  lemma BelowGrows(small: set<nat>, large: set<nat>, p: nat, q: nat)
    requires small <= large && p <= q
    ensures |Below(small, p)| <= |Below(large, q)|
  {
    SubsetSize(Below(small, p), Below(large, q));
  }

  // ----- every step keeps the invariant

  /** A claim about to be made stays below the tail. */
  lemma ClaimFits(s: State, t: Tid)
    requires Inv(s) && t < |s.threads| && s.threads[t].at.ClaimHead?
    ensures s.headIndex + s.threads[t].actual <= s.tailIndex
  {
    var th := s.threads[t];
    assert ThreadOk(s, th);
    var mine := Range(th.mine, th.mine + th.actual);
    GrantsFit(s);
    SubsetSize(s.claimed + mine, s.granted);
    assert |s.claimed + mine| == |s.claimed| + |mine|;
  }

  lemma EnqueueKeepsInv(s: State, count: nat)
    requires Inv(s)
    ensures Inv(Step(s, Enqueue(count)))
  {
    var s' := Step(s, Enqueue(count));
    forall t | 0 <= t < |s'.threads| ensures ThreadOk(s', s'.threads[t]) { assert ThreadOk(s, s.threads[t]); }
    forall p: nat | p < s'.optimistic ensures Settled(s', p) { assert Settled(s, p); }
  }

  lemma OvercommitFits(s: State)
    requires PositionsOk(s)
    ensures s.overcommit <= |s.refused|
  {
    SubsetSize(s.paid, s.refused);
  }

  lemma TakingKeepsInv(s: State, t: Tid)
    requires Inv(s) && t < |s.threads| && s.threads[t].at.TakeTicket?
    ensures Inv(AdvanceStep(s, t))
  {
    var s', th := AdvanceStep(s, t), s.threads[t];
    assert ThreadOk(s, th);
    assert Below(s.refused, s.optimistic) == s.refused;
    forall u | 0 <= u < |s'.threads| ensures ThreadOk(s', s'.threads[u]) && (u != t ==> Apart(s'.threads[u], s'.threads[t])) {
      assert ThreadOk(s, s.threads[u]);
    }
    forall p: nat | p < s'.optimistic ensures Settled(s', p) {
      assert p < s.optimistic ==> Settled(s, p);
      assert p >= s.optimistic ==> Draws(s'.threads[t], p);
      if u :| 0 <= u < |s.threads| && Draws(s.threads[u], p) { assert Draws(s'.threads[u], p); }
    }
  }

  /** A step by which thread t settles positions it has drawn, or none, and no others. */
  ghost predicate Settles(s: State, s': State, t: Tid) {
    && t < |s.threads| == |s'.threads| && s'.threads == s.threads[t := s'.threads[t]]
    && s'.optimistic == s.optimistic && s'.tailIndex == s.tailIndex
    && s.granted <= s'.granted && s.refused <= s'.refused && s.claimed <= s'.claimed && s.paid <= s'.paid
    && (forall p | p in s'.granted || p in s'.refused || p in s'.claimed || p in s'.paid ::
          Draws(s.threads[t], p) || ((p in s'.granted ==> p in s.granted) && (p in s'.refused ==> p in s.refused)
                                     && (p in s'.claimed ==> p in s.claimed) && (p in s'.paid ==> p in s.paid)))
    && (DrawnEnd(s'.threads[t]) > s'.threads[t].mine ==>
          s'.threads[t].mine == s.threads[t].mine && DrawnEnd(s'.threads[t]) <= DrawnEnd(s.threads[t]))
    && (forall p: nat | Draws(s.threads[t], p) :: Draws(s'.threads[t], p) || p in s'.claimed || p in s'.paid)
  }

  /** ... and is itself in order afterwards, as are the positions and the claims. */
  ghost predicate SettlesWell(s: State, s': State, t: Tid) {
    Settles(s, s', t) && ThreadOk(s', s'.threads[t]) && PositionsOk(s') && ClaimsTile(s')
  }

  lemma OtherThreadOk(s: State, s': State, t: Tid, th: Thread)
    requires Settles(s, s', t) && ThreadOk(s, th) && Apart(th, s.threads[t])
    ensures ThreadOk(s', th)
  {
    SubsetSize(s.refused, s'.refused);
    BelowGrows(s.refused, s'.refused, th.mine, th.mine);
  }

  lemma SettlingKeepsInv(s: State, s': State, t: Tid)
    requires Inv(s) && SettlesWell(s, s', t)
    ensures Inv(s')
  {
    forall u | 0 <= u < |s'.threads| ensures ThreadOk(s', s'.threads[u]) {
      if u != t { OtherThreadOk(s, s', t, s.threads[u]); }
    }
    forall p: nat | p < s'.optimistic ensures Settled(s', p) {
      assert Settled(s, p);
      if u :| 0 <= u < |s.threads| && Draws(s.threads[u], p) { assert p in s'.claimed || p in s'.paid || Draws(s'.threads[u], p); }
    }
  }

  /** What the second test grants fits below the tail, and what it refuses is new. */
  lemma ReloadPositions(s: State, t: Tid)
    requires PositionsOk(s) && t < |s.threads| && s.threads[t].at.ReloadTail? && ThreadOk(s, s.threads[t])
    ensures PositionsOk(AdvanceStep(s, t))
  {
    var s', th := AdvanceStep(s, t), s.threads[t];
    forall p <- s'.granted ensures p < s'.tailIndex + |Below(s'.refused, p)| {
      if p in s.granted {
        BelowGrows(s.refused, s'.refused, p, p);
      } else {
        BelowGrows(s.refused, s'.refused, th.mine, p);
      }
    }
  }

  lemma ReloadThread(s: State, t: Tid)
    requires t < |s.threads| && s.threads[t].at.ReloadTail? && ThreadOk(s, s.threads[t])
    requires s.claimed <= s.granted && s.paid <= s.refused
    ensures var s' := AdvanceStep(s, t); ThreadOk(s', s'.threads[t])
  {
  }

  lemma ReloadDraws(s: State, t: Tid)
    requires t < |s.threads| && s.threads[t].at.ReloadTail? && ThreadOk(s, s.threads[t])
    ensures Settles(s, AdvanceStep(s, t), t)
  {
  }

  lemma ReloadSettles(s: State, t: Tid)
    requires Inv(s) && t < |s.threads| && s.threads[t].at.ReloadTail?
    ensures SettlesWell(s, AdvanceStep(s, t), t)
  {
    hide ThreadOk, Settles, Below, Draws, DrawnEnd, Apart, Range;
    assert ThreadOk(s, s.threads[t]);
    ReloadPositions(s, t);
    ReloadThread(s, t);
    ReloadDraws(s, t);
    assert ClaimsTile(AdvanceStep(s, t));
  }

  lemma PayBackPositions(s: State, t: Tid)
    requires PositionsOk(s) && t < |s.threads| && s.threads[t].at.PayBack? && ThreadOk(s, s.threads[t])
    ensures PositionsOk(AdvanceStep(s, t))
  {
  }

  lemma PayBackSettles(s: State, t: Tid)
    requires Inv(s) && t < |s.threads| && s.threads[t].at.PayBack?
    ensures SettlesWell(s, AdvanceStep(s, t), t)
  {
    hide ThreadOk, Below, Apart, Settles, Draws, DrawnEnd, Range;
    assert ThreadOk(s, s.threads[t]);
    PayBackPositions(s, t);
    PayBackDraws(s, t);
    assert ClaimsTile(AdvanceStep(s, t));
  }

  lemma PayBackDraws(s: State, t: Tid)
    requires t < |s.threads| && s.threads[t].at.PayBack? && ThreadOk(s, s.threads[t])
    ensures var s' := AdvanceStep(s, t); Settles(s, s', t) && ThreadOk(s', s'.threads[t])
  {
  }

  lemma ClaimPositions(s: State, t: Tid)
    requires PositionsOk(s) && t < |s.threads| && s.threads[t].at.ClaimHead? && ThreadOk(s, s.threads[t])
    ensures PositionsOk(AdvanceStep(s, t))
  {
  }

  lemma ClaimTiles(s: State, t: Tid)
    requires ClaimsTile(s) && t < |s.threads| && s.threads[t].at.ClaimHead? && s.threads[t].actual > 0
    ensures ClaimsTile(AdvanceStep(s, t))
  {
  }

  lemma ClaimSettles(s: State, t: Tid)
    requires Inv(s) && t < |s.threads| && s.threads[t].at.ClaimHead?
    ensures SettlesWell(s, AdvanceStep(s, t), t)
  {
    hide PositionsOk, ClaimsTile;
    assert ThreadOk(s, s.threads[t]);
    ClaimPositions(s, t);
    ClaimTiles(s, t);
  }

  /** The calls and loads that draw nothing. */
  lemma LooseSettles(s: State, a: Action)
    requires Inv(s) && Enabled(s, a) && !a.Enqueue?
    requires var at := s.threads[a.t].at; at.Idle? || at.LoadOvercommit? || at.LoadOptimistic?
    ensures SettlesWell(s, Step(s, a), a.t)
  {
    assert ThreadOk(s, s.threads[a.t]);
    OvercommitFits(s);
  }

  lemma StepKeepsInv(s: State, a: Action)
    requires Inv(s) && Enabled(s, a)
    ensures Inv(Step(s, a))
  {
    if a.Enqueue? {
      EnqueueKeepsInv(s, a.count);
    } else {
      var at := s.threads[a.t].at;
      if at.TakeTicket? {
        TakingKeepsInv(s, a.t);
      } else {
        if at.ReloadTail? { ReloadSettles(s, a.t); }
        else if at.PayBack? { PayBackSettles(s, a.t); }
        else if at.ClaimHead? { ClaimSettles(s, a.t); }
        else { LooseSettles(s, a); }
        SettlingKeepsInv(s, Step(s, a), a.t);
      }
    }
  }

  // ----- whole runs

  /** The state after a schedule; an action that is not enabled when its turn comes is skipped. */
  function Run(s: State, schedule: seq<Action>): State {
    if schedule == [] then s
    else
      var before := Run(s, schedule[..|schedule| - 1]);
      var a := schedule[|schedule| - 1];
      if Enabled(before, a) then Step(before, a) else before
  }

  lemma {:induction false} RunKeepsInv(s: State, schedule: seq<Action>)
    requires Init(s)
    ensures Inv(Run(s, schedule))
  {
    if schedule != [] {
      RunKeepsInv(s, schedule[..|schedule| - 1]);
      var before := Run(s, schedule[..|schedule| - 1]);
      var a := schedule[|schedule| - 1];
      if Enabled(before, a) { StepKeepsInv(before, a); }
    }
  }

  /** Ticket safety, in every interleaving of single and bulk dequeues: the claims cover the
      indices below headIndex one after the other, so none is claimed twice; headIndex never
      passes the tail; and whoever has passed its second test will not push it past the tail. */
  lemma ClaimsAreSafe(s0: State, schedule: seq<Action>)
    requires Init(s0)
    ensures var s := Run(s0, schedule);
            && ClaimsTile(s)
            && s.headIndex <= s.tailIndex
            && (forall t | 0 <= t < |s.threads| && s.threads[t].at.ClaimHead? :: s.headIndex + s.threads[t].actual <= s.tailIndex)
  {
    RunKeepsInv(s0, schedule);
    var s := Run(s0, schedule);
    GrantsFit(s);
    SubsetSize(s.claimed, s.granted);
    forall t | 0 <= t < |s.threads| && s.threads[t].at.ClaimHead? ensures s.headIndex + s.threads[t].actual <= s.tailIndex {
      ClaimFits(s, t);
    }
  }

  predicate AllIdle(s: State) {
    forall t | 0 <= t < |s.threads| :: s.threads[t].at.Idle?
  }

  lemma RestingCounters(s: State)
    requires Inv(s) && AllIdle(s)
    ensures s.headIndex == s.optimistic - s.overcommit
  {
    forall p: nat | p < s.optimistic ensures p in s.claimed + s.paid { assert Settled(s, p); }
    assert s.claimed + s.paid == Range(0, s.optimistic);
    assert |s.claimed + s.paid| == |s.claimed| + |s.paid|;
  }

  /** With no dequeue in flight, headIndex = dequeueOptimisticCount - dequeueOvercommit. */
  lemma CountersMeetAtRest(s0: State, schedule: seq<Action>)
    requires Init(s0) && AllIdle(Run(s0, schedule))
    ensures var s := Run(s0, schedule); s.headIndex == s.optimistic - s.overcommit
  {
    RunKeepsInv(s0, schedule);
    RestingCounters(Run(s0, schedule));
  }

  function Next(s: State, t: Tid): (s': State)
    requires t < |s.threads|
    ensures |s'.threads| == |s.threads|
  {
    if s.threads[t].at.Idle? then s else AdvanceStep(s, t)
  }

  /** The call of one thread, from start to finish with nobody else moving. */
  function Alone(s: State, t: Tid, max: nat): State
    requires Enabled(s, CallDequeue(t, max))
  {
    Next(Next(Next(Next(Next(Step(s, CallDequeue(t, max)), t), t), t), t), t)
  }

  lemma HeadBelowTail(s: State)
    requires Inv(s)
    ensures s.headIndex <= s.tailIndex
  {
    GrantsFit(s);
    SubsetSize(s.claimed, s.granted);
  }

  /** What the counters leave for the next ticket. */
  function Room(s: State, max: nat): nat {
    var room := s.tailIndex - (s.optimistic - s.overcommit);
    if room > 0 then Min(max, room) else 0
  }

  /** The first test, undisturbed. */
  lemma AloneTests(s: State, t: Tid, max: nat)
    requires Enabled(s, CallDequeue(t, max))
    ensures var s3, count := Next(Next(Step(s, CallDequeue(t, max)), t), t), Room(s, max);
            if count == 0 then s3 == s.(threads := s.threads[t := s3.threads[t]]) && s3.threads[t].at.Idle?
            else s3 == s.(threads := s.threads[t := Thread(TakeTicket, max, s.tailIndex, s.overcommit, count, 0, 0)])
  {
  }

  /** A ticket that is granted at once, and the claim. */
  lemma AloneClaims(s: State, s3: State, t: Tid, max: nat, count: nat)
    requires Enabled(s, CallDequeue(t, max)) && 0 < count <= s.tailIndex - (s.optimistic - s.overcommit)
    requires s3 == s.(threads := s.threads[t := Thread(TakeTicket, max, s.tailIndex, s.overcommit, count, 0, 0)])
    ensures AloneOutcome(s, Next(Next(Next(s3, t), t), t), t, count)
  {
    hide Range;
    var s4 := Next(s3, t);
    var s5 := Next(s4, t);
    assert s4.threads[t].at.ReloadTail? && s5.threads[t].at.ClaimHead?;
  }

  predicate AloneOutcome(s: State, s': State, t: Tid, count: nat) {
    && s'.tailIndex == s.tailIndex && s'.headIndex == s.headIndex + count
    && t < |s'.threads| == |s.threads| && s'.threads[t].at.Idle?
    && (forall u | 0 <= u < |s.threads| && u != t :: s'.threads[u] == s.threads[u])
    && s'.claims == if count == 0 then s.claims else s.claims + [Claim(t, s.headIndex, count)]
  }

  /** A dequeue that nobody disturbs, wherever the others stand still, claims as many as the counters
      leave it. */
  lemma AloneTakesRoom(s: State, t: Tid, max: nat)
    requires Enabled(s, CallDequeue(t, max))
    ensures AloneOutcome(s, Alone(s, t, max), t, Room(s, max))
  {
    hide Next;
    AloneTests(s, t, max);
    var s3 := Next(Next(Step(s, CallDequeue(t, max)), t), t);
    if Room(s, max) == 0 { NothingNext(s3, t); } else { AloneClaims(s, s3, t, max, Room(s, max)); }
  }

  lemma NothingNext(s: State, t: Tid)
    requires t < |s.threads| && s.threads[t].at.Idle?
    ensures Next(Next(Next(s, t), t), t) == s
  {
  }

  /** With no other dequeue in progress it takes as many elements as there are, up to its maximum: in
      particular it comes back empty-handed exactly when the queue is empty. */
  lemma AloneTakesAllItCan(s: State, t: Tid, max: nat)
    requires Inv(s) && AllIdle(s) && t < |s.threads| && max > 0
    ensures var s' := Alone(s, t, max);
            var count := Min(max, s.tailIndex - s.headIndex);
            && s.headIndex <= s.tailIndex && s'.tailIndex == s.tailIndex && s'.headIndex == s.headIndex + count
            && AllIdle(s')
            && s'.claims == if count == 0 then s.claims else s.claims + [Claim(t, s.headIndex, count)]
  {
    hide Inv, Alone, Room;
    RestingRoom(s, max);
    AloneTakesRoom(s, t, max);
  }

  lemma RestingRoom(s: State, max: nat)
    requires Inv(s) && AllIdle(s)
    ensures s.headIndex <= s.tailIndex && Room(s, max) == Min(max, s.tailIndex - s.headIndex)
  {
    RestingCounters(s);
    HeadBelowTail(s);
    hide Inv;
  }

  /** Of the positions that a ticket stands for, those are granted that are less than the length of
      the queue ahead of the pay-backs the thread has seen, and the others are refused: a bulk dequeue
      is granted a part where it cannot be granted all. */
  lemma GrantedExactly(s: State, t: Tid, p: nat)
    requires Inv(s) && t < |s.threads| && s.threads[t].at.ReloadTail?
    ensures var th, s' := s.threads[t], Step(s, Advance(t));
            && (p in s'.granted <==> p in s.granted || (th.mine <= p < th.mine + th.desired && p < s.tailIndex + th.over))
            && (p in s'.refused <==> p in s.refused || (th.mine <= p < th.mine + th.desired && p >= s.tailIndex + th.over))
            && (s'.threads[t].at.PayBack? <==> th.mine + th.desired > s.tailIndex + th.over)
  {
    assert s.threads[t].desired > 0;
    hide Inv;
  }
}
