/** The CAS-based free list of blocks (struct FreeList), as a transition system.

Any number of threads run `add` and `try_get` at once. Every atomic load, store, fetch_add and
compare_exchange of the source is one step, so all interleavings are covered. A node is added
only by whoever holds it: that is the one rule the queue imposes on its callers. */
module FreeList {

  import opened Arithmetic
  import opened Collections

  type Tid = nat
  type Node = nat

  const SHOULD_BE_ON_FREELIST: nat := 0x8000_0000
  const WORD: nat := 0x1_0000_0000

  /** The value of REFS_MASK applied to a reference word. */
  function Masked(refs: nat): nat {
    refs % SHOULD_BE_ON_FREELIST
  }

  /** The next instruction of a thread. */
  datatype Label =
    | Idle
    | AddFlag    // add: freeListRefs.fetch_add(SHOULD_BE_ON_FREELIST)
    | LinkLoad   // add_knowing_refcount_is_zero: load freeListHead
    | LinkNext   // store freeListNext
    | LinkRefs   // store 1 to freeListRefs
    | LinkCas    // compare_exchange of freeListHead
    | LinkUndo   // freeListRefs.fetch_add(SHOULD_BE_ON_FREELIST - 1)
    | GetLoad    // try_get: load freeListHead
    | GetLoop    // leave the loop on a null head, else load freeListRefs
    | GetRef     // test the count, then compare_exchange of freeListRefs
    | GetNext    // load freeListNext
    | GetCas     // compare_exchange of freeListHead
    | GetTake    // the assert, fetch_sub(2), return
    | GetDrop    // fetch_sub(1) after a failed exchange

  /** A thread: its next instruction and its local variables. `inGet` tells whether
      add_knowing_refcount_is_zero was called by try_get, whose own `head` is then `seen`. */
  datatype Thread = Thread(at: Label, node: Node, refs: nat, head: Option<Node>, inGet: bool, seen: Option<Node>)

  /** Where a node is in its life. Auxiliary: no step looks at it. */
  datatype Life = Held | Entering(t: Tid) | Linking(t: Tid) | Linked | Leaving(t: Tid) | Waiting

  datatype NodeState = NodeState(refs: nat, next: Option<Node>, life: Life)

  /** What has happened so far, as callers see it. */
  datatype Event = Added(n: Node) | Got(n: Node)

  /** `head` and `nodes` are the shared memory. Auxiliary: `list`, the nodes on the list from
      its head, and `log`, the calls made. */
  datatype State = State(head: Option<Node>, nodes: seq<NodeState>, threads: seq<Thread>, list: seq<Node>, log: seq<Event>)

  datatype Action =
    | CallAdd(t: Tid, n: Node)
    | CallTryGet(t: Tid)
    | Advance(t: Tid)

  predicate UsesNode(at: Label) {
    !at.Idle? && !at.GetLoad? && !at.GetLoop?
  }

  predicate ValidPointer(s: State, p: Option<Node>) {
    p.Some? ==> p.value < |s.nodes|
  }

  predicate WellFormed(s: State) {
    && ValidPointer(s, s.head)
    && (forall n | 0 <= n < |s.nodes| :: ValidPointer(s, s.nodes[n].next))
    && (forall t | 0 <= t < |s.threads| ::
          (UsesNode(s.threads[t].at) ==> s.threads[t].node < |s.nodes|)
          && ValidPointer(s, s.threads[t].head) && ValidPointer(s, s.threads[t].seen))
  }

  predicate Enabled(s: State, a: Action) {
    && a.t < |s.threads|
    && match a
       case CallAdd(t, n) => s.threads[t].at.Idle? && n < |s.nodes| && s.nodes[n].life.Held?
       case CallTryGet(t) => s.threads[t].at.Idle?
       case Advance(t) => !s.threads[t].at.Idle?
  }

  function Goto(s: State, t: Tid, th: Thread): State
    requires t < |s.threads|
  {
    s.(threads := s.threads[t := th])
  }

  function SetNode(s: State, n: Node, node: NodeState): State
    requires n < |s.nodes|
  {
    s.(nodes := s.nodes[n := node])
  }

  /** The thread's state after add_knowing_refcount_is_zero returns to its caller. */
  function Return(th: Thread): Thread {
    if th.inGet then th.(at := GetLoop, head := th.seen) else th.(at := Idle)
  }

  function Step(s: State, a: Action): State
    requires WellFormed(s) && Enabled(s, a)
  {
    match a
    case CallAdd(t, n) =>
      SetNode(Goto(s, t, Thread(AddFlag, n, 0, None, false, None)), n, s.nodes[n].(life := Entering(t)))
      .(log := s.log + [Added(n)])
    case CallTryGet(t) => Goto(s, t, s.threads[t].(at := GetLoad))
    case Advance(t) =>
      if s.threads[t].at.AddFlag? then AddStep(s, t)
      else if InLink(s.threads[t].at) then LinkStep(s, t)
      else GetStep(s, t)
  }

  predicate InLink(at: Label) {
    at.LinkLoad? || at.LinkNext? || at.LinkRefs? || at.LinkCas? || at.LinkUndo?
  }

  function AddStep(s: State, t: Tid): State
    requires WellFormed(s) && t < |s.threads| && s.threads[t].at.AddFlag?
  {
    var th := s.threads[t];
    var n := th.node;
    var node := s.nodes[n];
    var refs := (node.refs + SHOULD_BE_ON_FREELIST) % WORD;
    if node.refs == 0
    then SetNode(Goto(s, t, th.(at := LinkLoad, inGet := false)), n, node.(refs := refs, life := Linking(t)))
    else SetNode(Goto(s, t, th.(at := Idle)), n, node.(refs := refs, life := Waiting))
  }

  function LinkStep(s: State, t: Tid): State
    requires WellFormed(s) && t < |s.threads| && InLink(s.threads[t].at)
  {
    var th := s.threads[t];
    var n := th.node;
    var node := s.nodes[n];
    if th.at.LinkLoad? then Goto(s, t, th.(at := LinkNext, head := s.head))
    else if th.at.LinkNext? then SetNode(Goto(s, t, th.(at := LinkRefs)), n, node.(next := th.head))
    else if th.at.LinkRefs? then SetNode(Goto(s, t, th.(at := LinkCas)), n, node.(refs := 1))
    else if th.at.LinkCas? then
      if s.head == th.head
      then SetNode(Goto(s, t, Return(th)), n, node.(life := Linked)).(head := Some(n), list := [n] + s.list)
      else Goto(s, t, th.(at := LinkUndo, head := s.head))
    else
      var refs := (node.refs + SHOULD_BE_ON_FREELIST - 1) % WORD;
      if node.refs == 1
      then SetNode(Goto(s, t, th.(at := LinkNext)), n, node.(refs := refs))
      else SetNode(Goto(s, t, Return(th)), n, node.(refs := refs, life := Waiting))
  }

  function GetStep(s: State, t: Tid): State
    requires WellFormed(s) && t < |s.threads|
    requires !InLink(s.threads[t].at) && !s.threads[t].at.Idle? && !s.threads[t].at.AddFlag?
  {
    var th := s.threads[t];
    if th.at.GetLoad? then Goto(s, t, th.(at := GetLoop, head := s.head))
    else if th.at.GetLoop? then
      if th.head.None? then Goto(s, t, th.(at := Idle))
      else Goto(s, t, th.(at := GetRef, node := th.head.value, refs := s.nodes[th.head.value].refs))
    else
      var n := th.node;
      var node := s.nodes[n];
      if th.at.GetRef? then
        if Masked(th.refs) == 0 || node.refs != th.refs
        then Goto(s, t, th.(at := GetLoad))
        else SetNode(Goto(s, t, th.(at := GetNext)), n, node.(refs := (node.refs + 1) % WORD))
      else if th.at.GetNext? then Goto(s, t, th.(at := GetCas, head := node.next))
      else if th.at.GetCas? then
        if s.head == Some(n)
        then SetNode(Goto(s, t, th.(at := GetTake)), n, node.(life := Leaving(t)))
             .(head := th.head, list := if s.list == [] then [] else s.list[1..])
        else Goto(s, t, th.(at := GetDrop, seen := s.head))
      else if th.at.GetTake? then
        SetNode(Goto(s, t, th.(at := Idle)), n, node.(refs := (node.refs + WORD - 2) % WORD, life := Held))
        .(log := s.log + [Got(n)])
      else
        var refs := (node.refs + WORD - 1) % WORD;
        if node.refs == SHOULD_BE_ON_FREELIST + 1
        then SetNode(Goto(s, t, th.(at := LinkLoad, inGet := true)), n, node.(refs := refs, life := Linking(t)))
        else SetNode(Goto(s, t, th.(at := GetLoop, head := th.seen)), n, node.(refs := refs))
  }

  /** All nodes start with their creator, threads idle, the list empty. */
  predicate Init(s: State) {
    && s.head == None && s.list == [] && s.log == []
    && (forall n | 0 <= n < |s.nodes| :: s.nodes[n] == NodeState(0, None, Held))
    && (forall t | 0 <= t < |s.threads| :: s.threads[t] == Thread(Idle, 0, 0, None, false, None))
    && |s.threads| < SHOULD_BE_ON_FREELIST - 1
  }

  // ----- the invariant

  /** A thread inside try_get that has taken a reference on node n. */
  predicate Refers(th: Thread, n: Node) {
    (th.at.GetNext? || th.at.GetCas? || th.at.GetTake? || th.at.GetDrop?) && th.node == n
  }

  ghost function Referrers(threads: seq<Thread>, n: Node): set<Tid> {
    set t | 0 <= t < |threads| && Refers(threads[t], n)
  }

  /** The references a node carries besides those of try_get: the list's own, or the flag. */
  function Base(s: State, n: Node): nat {
    if n >= |s.nodes| then 0
    else match s.nodes[n].life
      case Held => 0
      case Entering(_) => 0
      case Linked => 1
      case Leaving(_) => 1
      case Waiting => SHOULD_BE_ON_FREELIST
      case Linking(t) =>
        if t < |s.threads| && (s.threads[t].at.LinkCas? || s.threads[t].at.LinkUndo?) then 1 else SHOULD_BE_ON_FREELIST
  }

  /** A thread agrees with the node it works on. */
  predicate ThreadAgrees(s: State, t: Tid) {
    t < |s.threads| &&
    var th := s.threads[t];
    UsesNode(th.at) ==>
      th.node < |s.nodes| &&
      var node := s.nodes[th.node];
      && (th.at.AddFlag? ==> node.life == Entering(t))
      && (InLink(th.at) ==> node.life == Linking(t))
      && (th.at.GetTake? ==> node.life == Leaving(t))
      && (th.at.GetCas? || th.at.LinkRefs? || th.at.LinkCas? ==> node.next == th.head)
  }

  /** The thread that a node's life names is the one working on it. */
  predicate LifeAgrees(s: State, n: Node) {
    n < |s.nodes| &&
    match s.nodes[n].life
    case Entering(t) => t < |s.threads| && s.threads[t].at.AddFlag? && s.threads[t].node == n
    case Linking(t) => t < |s.threads| && InLink(s.threads[t].at) && s.threads[t].node == n
    case Leaving(t) => t < |s.threads| && s.threads[t].at.GetTake? && s.threads[t].node == n
    case _ => true
  }

  /** The reference word counts the list's reference (or holds the flag) and every referrer.
      While a node waits somebody still refers to it; while its `next` may be rewritten
      nobody does. */
  ghost predicate Counted(s: State, n: Node) {
    && n < |s.nodes|
    && s.nodes[n].refs == Base(s, n) + |Referrers(s.threads, n)|
    && (s.nodes[n].life.Waiting? ==> Referrers(s.threads, n) != {})
    && (s.nodes[n].life.Linking? && Base(s, n) != 1 ==> Referrers(s.threads, n) == {})
  }

  ghost predicate NodeAgrees(s: State, n: Node) {
    LifeAgrees(s, n) && Counted(s, n)
  }

  /** The list is the chain of `next` pointers from the head, without repetition. */
  predicate IsChain(head: Option<Node>, nodes: seq<NodeState>, list: seq<Node>) {
    && (head == if list == [] then None else Some(list[0]))
    && (forall i | 0 <= i < |list| :: list[i] < |nodes|)
    && (forall i | 0 < i < |list| :: nodes[list[i - 1]].next == Some(list[i]))
    && (list != [] ==> nodes[list[|list| - 1]].next == None)
    && (forall i, j | 0 <= i < j < |list| :: list[i] != list[j])
  }

  ghost predicate ListAgrees(s: State) {
    && IsChain(s.head, s.nodes, s.list)
    && (forall n | 0 <= n < |s.nodes| :: s.nodes[n].life.Linked? <==> n in s.list)
  }

  /** Among the first `end` events there is an add of n that no hand-out of n has followed. */
  ghost predicate PendingAdd(log: seq<Event>, n: Node, end: nat) {
    end <= |log| && exists k :: 0 <= k < end && log[k] == Added(n) && forall j | k < j < end :: log[j] != Got(n)
  }

  /** Every hand-out of a node answers an add of its own. */
  ghost predicate Alternates(log: seq<Event>) {
    forall j | 0 <= j < |log| && log[j].Got? :: PendingAdd(log, log[j].n, j)
  }

  ghost predicate LogAgrees(s: State) {
    && Alternates(s.log)
    && (forall n | 0 <= n < |s.nodes| :: !s.nodes[n].life.Held? <==> PendingAdd(s.log, n, |s.log|))
  }

  ghost predicate AllAgree(s: State) {
    && (forall t | 0 <= t < |s.threads| :: ThreadAgrees(s, t))
    && (forall n | 0 <= n < |s.nodes| :: NodeAgrees(s, n))
  }

  ghost predicate Inv(s: State) {
    && WellFormed(s)
    && |s.threads| < SHOULD_BE_ON_FREELIST - 1
    && AllAgree(s)
    && ListAgrees(s)
    && LogAgrees(s)
  }

  // ----- every step keeps the invariant

  lemma ReferrersFew(threads: seq<Thread>, n: Node)
    ensures |Referrers(threads, n)| <= |threads|
  {
    if threads != [] {
      var last := |threads| - 1;
      ReferrersFew(threads[..last], n);
      assert Referrers(threads, n) <= Referrers(threads[..last], n) + {last};
      SubsetSize(Referrers(threads, n), Referrers(threads[..last], n) + {last});
    } else {
      assert Referrers(threads, n) == {};
    }
  }

  /** How the referrers of a node change when thread t becomes th. */
  lemma ReferrersAfter(threads: seq<Thread>, t: Tid, th: Thread, m: Node)
    requires t < |threads|
    ensures var r, r' := Referrers(threads, m), Referrers(threads[t := th], m);
            && (Refers(threads[t], m) ==> t in r)
            && (Refers(th, m) ==> t in r')
            && |r'| == |r| + (if Refers(th, m) then 1 else 0) - (if Refers(threads[t], m) then 1 else 0)
            && (Refers(th, m) == Refers(threads[t], m) ==> r' == r)
  {
    var r, r' := Referrers(threads, m), Referrers(threads[t := th], m);
    var rest := r - {t};
    assert r' - {t} == rest;
    assert r == if Refers(threads[t], m) then rest + {t} else rest;
    assert r' == if Refers(th, m) then rest + {t} else rest;
  }

  /** A step of thread t that works on node n leaves every other node and thread alone. */
  ghost predicate WorksOn(s: State, s': State, t: Tid, n: Node) {
    && t < |s.threads| && n < |s.nodes| && |s'.threads| == |s.threads| && |s'.nodes| == |s.nodes|
    && s'.threads == s.threads[t := s'.threads[t]]
    && s'.nodes == s.nodes[n := s'.nodes[n]]
    && (UsesNode(s.threads[t].at) ==> s.threads[t].node == n)
    && (UsesNode(s'.threads[t].at) ==> s'.threads[t].node == n)
  }

  /** If the node worked on and the threads that use it are in order, so is everything. */
  lemma OthersKeep(s: State, s': State, t: Tid, n: Node)
    requires WellFormed(s) && AllAgree(s) && WorksOn(s, s', t, n)
    requires ThreadAgrees(s', t) && NodeAgrees(s', n)
    requires UsersKeep(s, s', t, n)
    ensures AllAgree(s')
  {
    forall u | 0 <= u < |s'.threads| ensures ThreadAgrees(s', u) {
      if u != t { assert ThreadAgrees(s, u); }
    }
    forall m | 0 <= m < |s'.nodes| ensures NodeAgrees(s', m) {
      if m != n {
        assert NodeAgrees(s, m);
        ReferrersAfter(s.threads, t, s'.threads[t], m);
      }
    }
  }

  /** What a step at an instruction that uses node n may rely on. */
  lemma AtNode(s: State, t: Tid)
    requires Inv(s) && t < |s.threads| && UsesNode(s.threads[t].at)
    ensures ThreadAgrees(s, t) && NodeAgrees(s, s.threads[t].node)
    ensures |Referrers(s.threads, s.threads[t].node)| < SHOULD_BE_ON_FREELIST - 1
  {
    assert ThreadAgrees(s, t);
    assert NodeAgrees(s, s.threads[t].node);
    ReferrersFew(s.threads, s.threads[t].node);
  }

  /** The other threads that use node n still agree with it after a step of t. */
  ghost predicate UsersKeep(s: State, s': State, t: Tid, n: Node) {
    forall u | 0 <= u < |s.threads| && u != t && UsesNode(s.threads[u].at) && s.threads[u].node == n :: ThreadAgrees(s', u)
  }

  lemma LinkUsers(s: State, t: Tid)
    requires Inv(s) && t < |s.threads| && InLink(s.threads[t].at)
    ensures UsersKeep(s, LinkStep(s, t), t, s.threads[t].node)
  {
    var s' := LinkStep(s, t);
    var n := s.threads[t].node;
    AtNode(s, t);
    forall u | 0 <= u < |s.threads| && u != t && UsesNode(s.threads[u].at) && s.threads[u].node == n ensures ThreadAgrees(s', u) {
      assert ThreadAgrees(s, u);
      assert Refers(s.threads[u], n) ==> u in Referrers(s.threads, n);
    }
  }

  lemma LinkLocal(s: State, t: Tid)
    requires Inv(s) && t < |s.threads| && InLink(s.threads[t].at)
    ensures ThreadAgrees(LinkStep(s, t), t) && NodeAgrees(LinkStep(s, t), s.threads[t].node)
  {
    hide ListAgrees, LogAgrees, IsChain, Referrers;
    AtNode(s, t);
    ReferrersAfter(s.threads, t, LinkStep(s, t).threads[t], s.threads[t].node);
  }

  lemma LinkAgrees(s: State, t: Tid)
    requires Inv(s) && t < |s.threads| && InLink(s.threads[t].at)
    ensures AllAgree(LinkStep(s, t))
  {
    AtNode(s, t);
    LinkLocal(s, t);
    LinkUsers(s, t);
    OthersKeep(s, LinkStep(s, t), t, s.threads[t].node);
  }

  lemma AddAgrees(s: State, t: Tid)
    requires Inv(s) && t < |s.threads| && s.threads[t].at.AddFlag?
    ensures AllAgree(AddStep(s, t))
  {
    var s' := AddStep(s, t);
    var n := s.threads[t].node;
    AtNode(s, t);
    ReferrersAfter(s.threads, t, s'.threads[t], n);
    assert UsersKeep(s, s', t, n) by {
      forall u | 0 <= u < |s.threads| && u != t && UsesNode(s.threads[u].at) && s.threads[u].node == n ensures ThreadAgrees(s', u) {
        assert ThreadAgrees(s, u);
      }
    }
    OthersKeep(s, s', t, n);
  }

  /** A thread moving between instructions that hold no node disturbs nothing. */
  lemma LooseAgrees(s: State, t: Tid, th: Thread)
    requires WellFormed(s) && AllAgree(s) && t < |s.threads|
    requires var at := s.threads[t].at; at.Idle? || at.GetLoad? || at.GetLoop? || at.GetRef?
    requires th.at.Idle? || th.at.GetLoad? || th.at.GetLoop? || th.at.GetRef?
    requires UsesNode(th.at) ==> th.node < |s.nodes|
    ensures AllAgree(Goto(s, t, th))
  {
    var s' := Goto(s, t, th);
    forall u | 0 <= u < |s'.threads| ensures ThreadAgrees(s', u) {
      if u != t { assert ThreadAgrees(s, u); }
    }
    forall m | 0 <= m < |s'.nodes| ensures NodeAgrees(s', m) {
      assert NodeAgrees(s, m);
      ReferrersAfter(s.threads, t, th, m);
    }
  }

  predicate GetsNode(at: Label) {
    at.GetRef? || at.GetNext? || at.GetCas? || at.GetTake? || at.GetDrop?
  }

  lemma GetUsers(s: State, t: Tid)
    requires Inv(s) && t < |s.threads| && GetsNode(s.threads[t].at)
    ensures UsersKeep(s, GetStep(s, t), t, s.threads[t].node)
  {
    var s' := GetStep(s, t);
    var n := s.threads[t].node;
    AtNode(s, t);
    if s.threads[t].at.GetCas? && s.head == Some(n) { assert n in s.list; }
    forall u | 0 <= u < |s.threads| && u != t && UsesNode(s.threads[u].at) && s.threads[u].node == n ensures ThreadAgrees(s', u) {
      assert ThreadAgrees(s, u);
    }
  }

  /** A counted node has its count raised; a node about to be relinked shows a count of zero, so
      nobody gets a reference to it. */
  lemma GetRefLocal(s: State, t: Tid)
    requires Inv(s) && t < |s.threads| && s.threads[t].at.GetRef? && GetStep(s, t).threads[t].at.GetNext?
    ensures ThreadAgrees(GetStep(s, t), t) && NodeAgrees(GetStep(s, t), s.threads[t].node)
  {
    var s', n := GetStep(s, t), s.threads[t].node;
    AtNode(s, t);
    ReferrersAfter(s.threads, t, s'.threads[t], n);
    assert s'.nodes[n].refs == s.nodes[n].refs + 1 && Base(s', n) == Base(s, n);
  }

  lemma GetLocal(s: State, t: Tid)
    requires Inv(s) && t < |s.threads| && (s.threads[t].at.GetNext? || s.threads[t].at.GetCas?)
    ensures ThreadAgrees(GetStep(s, t), t) && NodeAgrees(GetStep(s, t), s.threads[t].node)
  {
    var n := s.threads[t].node;
    AtNode(s, t);
    ReferrersAfter(s.threads, t, GetStep(s, t).threads[t], n);
    if s.threads[t].at.GetCas? && s.head == Some(n) { assert n in s.list; }
  }

  lemma TakeLocal(s: State, t: Tid)
    requires Inv(s) && t < |s.threads| && s.threads[t].at.GetTake?
    ensures ThreadAgrees(GetStep(s, t), t) && NodeAgrees(GetStep(s, t), s.threads[t].node)
  {
    AtNode(s, t);
    ReferrersAfter(s.threads, t, GetStep(s, t).threads[t], s.threads[t].node);
  }

  /** Whoever drops the last reference of a flagged node links it, and nobody else will. */
  lemma DropLocal(s: State, t: Tid)
    requires Inv(s) && t < |s.threads| && s.threads[t].at.GetDrop?
    ensures ThreadAgrees(GetStep(s, t), t) && NodeAgrees(GetStep(s, t), s.threads[t].node)
  {
    hide ListAgrees, LogAgrees, IsChain, Referrers;
    AtNode(s, t);
    ReferrersAfter(s.threads, t, GetStep(s, t).threads[t], s.threads[t].node);
  }

  lemma GetAgrees(s: State, t: Tid)
    requires Inv(s) && t < |s.threads| && GetsNode(s.threads[t].at)
    ensures AllAgree(GetStep(s, t))
  {
    var s' := GetStep(s, t);
    if s'.threads[t].at.GetLoad? {
      LooseAgrees(s, t, s'.threads[t]);
    } else {
      AtNode(s, t);
      if s.threads[t].at.GetTake? {
        TakeLocal(s, t);
      } else if s.threads[t].at.GetDrop? {
        DropLocal(s, t);
      } else if s.threads[t].at.GetRef? {
        GetRefLocal(s, t);
      } else {
        GetLocal(s, t);
      }
      GetUsers(s, t);
      OthersKeep(s, s', t, s.threads[t].node);
    }
  }

  lemma StepAgrees(s: State, a: Action)
    requires Inv(s) && Enabled(s, a)
    ensures AllAgree(Step(s, a))
  {
    var s', t, th := Step(s, a), a.t, s.threads[a.t];
    if a.CallAdd? {
      assert ThreadAgrees(s, t) && NodeAgrees(s, a.n);
      ReferrersAfter(s.threads, t, s'.threads[t], a.n);
      assert UsersKeep(s, s', t, a.n) by {
        forall u | 0 <= u < |s.threads| && u != t && UsesNode(s.threads[u].at) && s.threads[u].node == a.n ensures ThreadAgrees(s', u) {
          assert ThreadAgrees(s, u);
        }
      }
      OthersKeep(s, s', t, a.n);
    } else if th.at.AddFlag? {
      AddAgrees(s, t);
    } else if InLink(th.at) {
      LinkAgrees(s, t);
    } else if GetsNode(th.at) {
      GetAgrees(s, t);
    } else {
      LooseAgrees(s, t, s'.threads[t]);
    }
  }

  // ----- the list

  lemma Pushed(head: Option<Node>, nodes: seq<NodeState>, list: seq<Node>, n: Node)
    requires IsChain(head, nodes, list) && n < |nodes| && n !in list && nodes[n].next == head
    ensures IsChain(Some(n), nodes, [n] + list)
  {
  }

  lemma Popped(head: Option<Node>, nodes: seq<NodeState>, list: seq<Node>)
    requires IsChain(head, nodes, list) && head.Some?
    ensures IsChain(nodes[head.value].next, nodes, list[1..])
    ensures forall n :: n in list <==> n == head.value || n in list[1..]
    ensures head.value !in list[1..]
  {
  }

  lemma Untouched(head: Option<Node>, nodes: seq<NodeState>, list: seq<Node>, n: Node, node: NodeState)
    requires IsChain(head, nodes, list) && n < |nodes| && (n !in list || node.next == nodes[n].next)
    ensures IsChain(head, nodes[n := node], list)
  {
  }

  /** A step that changes no node's place and no successor on the list. */
  lemma SameList(s: State, s': State, n: Node)
    requires ListAgrees(s) && n < |s.nodes| && |s'.nodes| == |s.nodes|
    requires s'.head == s.head && s'.list == s.list && s'.nodes == s.nodes[n := s'.nodes[n]]
    requires n !in s.list || s'.nodes[n].next == s.nodes[n].next
    requires s'.nodes[n].life.Linked? == s.nodes[n].life.Linked?
    ensures ListAgrees(s')
  {
  }

  /** A node enters the list at its head, with the old head as its successor. */
  lemma LinkKeepsList(s: State, t: Tid)
    requires Inv(s) && t < |s.threads| && InLink(s.threads[t].at)
    ensures ListAgrees(LinkStep(s, t))
  {
    hide LogAgrees, ThreadAgrees;
    var s' := LinkStep(s, t);
    var th := s.threads[t];
    var n := th.node;
    AtNode(s, t);
    if th.at.LinkCas? && s.head == th.head {
      Untouched(s.head, s.nodes, s.list, n, s'.nodes[n]);
      Pushed(s.head, s'.nodes, s.list, n);
    } else {
      assert s'.nodes == s.nodes[n := s'.nodes[n]];
      SameList(s, s', n);
    }
  }

  /** A node leaves the list from its head, and the `next` read before the exchange is still its
      successor at that moment. */
  lemma GetKeepsList(s: State, t: Tid)
    requires Inv(s) && t < |s.threads|
    requires GetsNode(s.threads[t].at)
    ensures ListAgrees(GetStep(s, t))
  {
    hide LogAgrees, Referrers;
    var s' := GetStep(s, t);
    var th := s.threads[t];
    var n := th.node;
    AtNode(s, t);
    if th.at.GetCas? && s.head == Some(n) {
      Untouched(s.head, s.nodes, s.list, n, s'.nodes[n]);
      Popped(s.head, s'.nodes, s.list);
    } else {
      assert s'.nodes == s.nodes[n := s'.nodes[n]];
      SameList(s, s', n);
    }
  }

  lemma StepKeepsList(s: State, a: Action)
    requires Inv(s) && Enabled(s, a)
    ensures ListAgrees(Step(s, a))
  {
    var s', t, th := Step(s, a), a.t, s.threads[a.t];
    if a.CallAdd? {
      SameList(s, s', a.n);
    } else if th.at.AddFlag? {
      AtNode(s, t);
      SameList(s, s', th.node);
    } else if InLink(th.at) {
      LinkKeepsList(s, t);
    } else if UsesNode(th.at) {
      GetKeepsList(s, t);
    }
  }

  // ----- the log

  lemma PendingExtends(log: seq<Event>, e: Event, n: Node, end: nat)
    requires end <= |log|
    ensures PendingAdd(log + [e], n, end) <==> PendingAdd(log, n, end)
    ensures end == |log| && e.n != n ==> (PendingAdd(log + [e], n, end + 1) <==> PendingAdd(log, n, end))
  {
    var log' := log + [e];
    if PendingAdd(log, n, end) {
      var k :| 0 <= k < end && log[k] == Added(n) && forall j | k < j < end :: log[j] != Got(n);
      assert log'[k] == Added(n);
    }
    if PendingAdd(log', n, end) {
      var k :| 0 <= k < end && log'[k] == Added(n) && forall j | k < j < end :: log'[j] != Got(n);
      assert log[k] == Added(n) && forall j | k < j < end :: log[j] == log'[j];
    }
    if end == |log| && e.n != n && PendingAdd(log', n, end + 1) {
      var k :| 0 <= k < end + 1 && log'[k] == Added(n) && forall j | k < j < end + 1 :: log'[j] != Got(n);
      assert log[k] == Added(n) && forall j | k < j < end :: log[j] == log'[j];
    }
  }

  /** Appending an event for a node that leaves its holder, or is handed to one. */
  lemma LogGrows(s: State, s': State, e: Event)
    requires LogAgrees(s) && s'.log == s.log + [e] && e.n < |s.nodes| == |s'.nodes|
    requires s'.nodes == s.nodes[e.n := s'.nodes[e.n]]
    requires if e.Got? then !s.nodes[e.n].life.Held? && s'.nodes[e.n].life.Held? else !s'.nodes[e.n].life.Held?
    ensures LogAgrees(s')
  {
    forall j | 0 <= j < |s'.log| && s'.log[j].Got? ensures PendingAdd(s'.log, s'.log[j].n, j) {
      PendingExtends(s.log, e, s'.log[j].n, j);
    }
    forall n | 0 <= n < |s'.nodes| ensures !s'.nodes[n].life.Held? <==> PendingAdd(s'.log, n, |s'.log|) {
      if n == e.n { assert s'.log[|s.log|] == e; } else { PendingExtends(s.log, e, n, |s.log|); }
    }
  }

  /** A step that neither hands out a node nor takes one from its holder. */
  lemma LogStays(s: State, s': State, n: Node)
    requires LogAgrees(s) && s'.log == s.log && n < |s.nodes| == |s'.nodes|
    requires s'.nodes == s.nodes[n := s'.nodes[n]] && s'.nodes[n].life.Held? == s.nodes[n].life.Held?
    ensures LogAgrees(s')
  {
  }

  lemma StepKeepsLog(s: State, a: Action)
    requires Inv(s) && Enabled(s, a)
    ensures LogAgrees(Step(s, a))
  {
    hide Referrers;
    var s', th := Step(s, a), s.threads[a.t];
    if a.CallAdd? {
      LogGrows(s, s', Added(a.n));
    } else if UsesNode(th.at) {
      AtNode(s, a.t);
      if th.at.GetTake? {
        LogGrows(s, s', Got(th.node));
      } else {
        if th.at.GetCas? && s.head == Some(th.node) { assert th.node in s.list; }
        LogStays(s, s', th.node);
      }
    }
  }

  // ----- whole runs

  lemma Redirected(s: State, s': State, t: Tid, n: Node)
    requires WellFormed(s) && WorksOn(s, s', t, n)
    requires ValidPointer(s, s'.head) && ValidPointer(s, s'.nodes[n].next)
    requires ValidPointer(s, s'.threads[t].head) && ValidPointer(s, s'.threads[t].seen)
    ensures WellFormed(s')
  {
  }

  lemma GetWellFormed(s: State, t: Tid)
    requires WellFormed(s) && t < |s.threads| && GetsNode(s.threads[t].at)
    ensures WellFormed(GetStep(s, t)) && |GetStep(s, t).threads| == |s.threads|
  {
    Redirected(s, GetStep(s, t), t, s.threads[t].node);
  }

  lemma LinkWellFormed(s: State, t: Tid)
    requires WellFormed(s) && t < |s.threads| && InLink(s.threads[t].at)
    ensures WellFormed(LinkStep(s, t)) && |LinkStep(s, t).threads| == |s.threads|
  {
    Redirected(s, LinkStep(s, t), t, s.threads[t].node);
  }

  lemma StepWellFormed(s: State, a: Action)
    requires WellFormed(s) && Enabled(s, a)
    ensures WellFormed(Step(s, a)) && |Step(s, a).threads| == |s.threads|
  {
    var t := a.t;
    if a.CallAdd? {
      Redirected(s, Step(s, a), t, a.n);
    } else if s.threads[t].at.AddFlag? {
      Redirected(s, Step(s, a), t, s.threads[t].node);
    } else if InLink(s.threads[t].at) {
      LinkWellFormed(s, t);
    } else if GetsNode(s.threads[t].at) {
      GetWellFormed(s, t);
    }
  }

  lemma Together(s: State)
    requires WellFormed(s) && |s.threads| < SHOULD_BE_ON_FREELIST - 1
    requires AllAgree(s) && ListAgrees(s) && LogAgrees(s)
    ensures Inv(s)
  {
  }

  lemma StepKeepsInv(s: State, a: Action)
    requires Inv(s) && Enabled(s, a)
    ensures Inv(Step(s, a))
  {
    StepWellFormed(s, a);
    StepAgrees(s, a);
    StepKeepsList(s, a);
    StepKeepsLog(s, a);
    Together(Step(s, a));
  }

  lemma InitHasInv(s: State)
    requires Init(s)
    ensures Inv(s)
  {
  }

  /** The state after a schedule; an action that is not enabled when its turn comes is skipped. */
  ghost function Run(s: State, schedule: seq<Action>): (s': State)
    requires WellFormed(s)
    ensures WellFormed(s')
  {
    if schedule == [] then s
    else
      var before := Run(s, schedule[..|schedule| - 1]);
      var a := schedule[|schedule| - 1];
      if Enabled(before, a) then StepWellFormed(before, a); Step(before, a) else before
  }

  lemma {:induction false} RunKeepsInv(s: State, schedule: seq<Action>)
    requires Init(s)
    ensures WellFormed(s) && Inv(Run(s, schedule))
  {
    InitHasInv(s);
    if schedule != [] {
      RunKeepsInv(s, schedule[..|schedule| - 1]);
      var before := Run(s, schedule[..|schedule| - 1]);
      var a := schedule[|schedule| - 1];
      if Enabled(before, a) { StepKeepsInv(before, a); }
    }
  }

  /** Free list safety, in every interleaving: a node is never handed out twice without an add of
      it in between; the list is a finite chain without repetition; the assertion in try_get never
      fires; and when the exchange that takes the head is about to succeed, the `next` read
      earlier is still the head's successor. */
  lemma Safety(s0: State, schedule: seq<Action>)
    requires Init(s0)
    ensures WellFormed(s0)
    ensures var s := Run(s0, schedule);
            && Alternates(s.log)
            && (exists list :: IsChain(s.head, s.nodes, list))
            && (forall t | 0 <= t < |s.threads| && s.threads[t].at.GetTake? ::
                  s.nodes[s.threads[t].node].refs < SHOULD_BE_ON_FREELIST)
            && (forall t | 0 <= t < |s.threads| && s.threads[t].at.GetCas? && s.head == Some(s.threads[t].node) ::
                  s.nodes[s.threads[t].node].next == s.threads[t].head)
  {
    RunKeepsInv(s0, schedule);
    var s := Run(s0, schedule);
    assert IsChain(s.head, s.nodes, s.list);
    forall t | 0 <= t < |s.threads| && UsesNode(s.threads[t].at)
      ensures ThreadAgrees(s, t)
      ensures s.threads[t].at.GetTake? ==> s.nodes[s.threads[t].node].refs < SHOULD_BE_ON_FREELIST
    {
      AtNode(s, t);
    }
  }

  /** The list's own reference: held while a node is listed, and from the store of 1 to
      freeListRefs until the exchange succeeds or is undone, and until its taker returns. */
  predicate ListReference(s: State, n: Node) {
    n < |s.nodes| && (s.nodes[n].life.Linked? || s.nodes[n].life.Leaving?
                      || exists t | 0 <= t < |s.threads| :: s.threads[t].node == n && (s.threads[t].at.LinkCas? || s.threads[t].at.LinkUndo?))
  }

  lemma LinkersOf(s: State, n: Node, t: Tid)
    requires Inv(s) && n < |s.nodes| && t < |s.threads| && InLink(s.threads[t].at) && s.threads[t].node == n
    ensures s.nodes[n].life == Linking(t)
  {
    assert ThreadAgrees(s, t);
  }

  lemma CountOf(s: State, n: Node)
    requires Inv(s) && n < |s.nodes|
    ensures Masked(s.nodes[n].refs) == (if ListReference(s, n) then 1 else 0) + |Referrers(s.threads, n)|
  {
    assert NodeAgrees(s, n);
    ReferrersFew(s.threads, n);
    if Base(s, n) == 1 {
      assert ListReference(s, n);
    } else if t :| 0 <= t < |s.threads| && s.threads[t].node == n && (s.threads[t].at.LinkCas? || s.threads[t].at.LinkUndo?) {
      LinkersOf(s, n, t);
    }
  }

  /** Reference accounting, in every interleaving: the low 31 bits count the list's reference and
      the threads inside try_get that hold the node, and at most one thread is ever inside
      add_knowing_refcount_is_zero for a node. */
  lemma Accounting(s0: State, schedule: seq<Action>, n: Node)
    requires Init(s0) && n < |Run(s0, schedule).nodes|
    ensures var s := Run(s0, schedule);
            && Masked(s.nodes[n].refs) == (if ListReference(s, n) then 1 else 0) + |Referrers(s.threads, n)|
            && (forall t, u | 0 <= t < |s.threads| && 0 <= u < |s.threads| && InLink(s.threads[t].at) && InLink(s.threads[u].at)
                  && s.threads[t].node == n && s.threads[u].node == n :: t == u)
  {
    RunKeepsInv(s0, schedule);
    var s := Run(s0, schedule);
    CountOf(s, n);
    forall t | 0 <= t < |s.threads| && InLink(s.threads[t].at) && s.threads[t].node == n ensures s.nodes[n].life == Linking(t) {
      LinkersOf(s, n, t);
    }
  }

  lemma RestingNode(s: State, n: Node)
    requires Inv(s) && n < |s.nodes|
    requires forall t | 0 <= t < |s.threads| :: s.threads[t].at.Idle?
    ensures n in s.list <==> PendingAdd(s.log, n, |s.log|)
    ensures s.nodes[n].refs == if n in s.list then 1 else 0
  {
    assert NodeAgrees(s, n);
    assert Referrers(s.threads, n) == {};
  }

  /** `list` is what can be reached from the head: exactly the nodes added and not handed out
      since, each with the list's reference only; every other node has none, and no flag. */
  ghost predicate HoldsExactly(s: State, list: seq<Node>) {
    && IsChain(s.head, s.nodes, list)
    && (forall n | 0 <= n < |s.nodes| :: n in list <==> PendingAdd(s.log, n, |s.log|))
    && (forall n | 0 <= n < |s.nodes| :: s.nodes[n].refs == if n in list then 1 else 0)
  }

  /** Nothing is stranded once no call is in progress. */
  lemma NothingStranded(s0: State, schedule: seq<Action>)
    requires Init(s0)
    requires forall t | 0 <= t < |Run(s0, schedule).threads| :: Run(s0, schedule).threads[t].at.Idle?
    ensures exists list :: HoldsExactly(Run(s0, schedule), list)
  {
    RunKeepsInv(s0, schedule);
    var s := Run(s0, schedule);
    forall n | 0 <= n < |s.nodes|
      ensures n in s.list <==> PendingAdd(s.log, n, |s.log|)
      ensures s.nodes[n].refs == if n in s.list then 1 else 0
    {
      RestingNode(s, n);
    }
    assert HoldsExactly(s, s.list);
  }

  // ----- calls that nobody disturbs

  /** The state after n more steps of thread t, or fewer if its call is over before; the other
      threads stand still wherever they are. */
  ghost function Alone(s: State, t: Tid, n: nat): (s': State)
    requires WellFormed(s) && t < |s.threads|
    ensures WellFormed(s') && |s'.threads| == |s.threads|
  {
    if n == 0 then s
    else
      var before := Alone(s, t, n - 1);
      if before.threads[t].at.Idle? then before else StepWellFormed(before, Advance(t)); Step(before, Advance(t))
  }

  /** How many steps the call of t still takes, at most: it comes round again only for a head that
      it loaded before it was alone, or that it has replaced itself. */
  function StepsLeft(s: State, t: Tid): (k: nat)
    requires WellFormed(s) && t < |s.threads|
    ensures k <= 18 && (k == 0 <==> s.threads[t].at.Idle?)
  {
    var th := s.threads[t];
    var again := if th.inGet then 10 else 0;
    match th.at
    case Idle => 0
    case AddFlag => 5
    case LinkLoad => 4 + again
    case LinkNext => (if th.head == s.head then 3 else 7) + again
    case LinkRefs => (if th.head == s.head then 2 else 6) + again
    case LinkCas => (if th.head == s.head then 1 else 5) + again
    case LinkUndo => (if s.nodes[th.node].refs != 1 then 1 else if th.head == s.head then 4 else 8) + again
    case GetLoad => 6
    case GetLoop => if th.head.None? then 1 else if th.head == s.head then 5 else 10
    case GetRef =>
      if Masked(th.refs) == 0 || s.nodes[th.node].refs != th.refs then 7 else if s.head == Some(th.node) then 4 else 9
    case GetNext => if s.head == Some(th.node) then 3 else 2 + DropLeft(s, th.node, s.head)
    case GetCas => if s.head == Some(th.node) then 2 else 1 + DropLeft(s, th.node, s.head)
    case GetTake => 1
    case GetDrop => DropLeft(s, th.node, th.seen)
  }

  /** ... after an exchange that failed and read `seen`. */
  function DropLeft(s: State, n: Node, seen: Option<Node>): nat
    requires n < |s.nodes|
  {
    if s.nodes[n].refs == SHOULD_BE_ON_FREELIST + 1 then 15 else if seen == s.head then 6 else 11
  }

  /** The node at the head shows a count that is neither zero nor about to overflow. */
  lemma HeadCounted(s: State)
    requires Inv(s) && s.head.Some?
    ensures var n := s.head.value; n in s.list && s.nodes[n].life.Linked? && 0 < s.nodes[n].refs < SHOULD_BE_ON_FREELIST
  {
    var n := s.head.value;
    assert s.list[0] == n;
    assert NodeAgrees(s, n);
    ReferrersFew(s.threads, n);
  }

  lemma AddTaken(s: State, t: Tid)
    requires WellFormed(s) && t < |s.threads| && s.threads[t].at.AddFlag?
    requires WellFormed(AddStep(s, t))
    ensures StepsLeft(AddStep(s, t), t) < StepsLeft(s, t)
  {
  }

  lemma LinkTaken(s: State, t: Tid)
    requires WellFormed(s) && t < |s.threads| && InLink(s.threads[t].at)
    requires WellFormed(LinkStep(s, t))
    ensures StepsLeft(LinkStep(s, t), t) < StepsLeft(s, t)
  {
  }

  lemma LoopTaken(s: State, t: Tid)
    requires WellFormed(s) && t < |s.threads| && (s.threads[t].at.GetLoad? || s.threads[t].at.GetLoop?)
    requires s.head.Some? ==> Masked(s.nodes[s.head.value].refs) != 0
    requires WellFormed(GetStep(s, t))
    ensures StepsLeft(GetStep(s, t), t) < StepsLeft(s, t)
  {
    assert s.threads[t].head.Some? ==> s.threads[t].head.value < |s.nodes|;
    hide WellFormed, Masked;
  }

  lemma RefTaken(s: State, t: Tid)
    requires WellFormed(s) && t < |s.threads| && s.threads[t].at.GetRef?
    requires WellFormed(GetStep(s, t))
    ensures StepsLeft(GetStep(s, t), t) < StepsLeft(s, t)
  {
    assert s.threads[t].node < |s.nodes|;
    hide WellFormed, Masked;
    CountedUp(s.threads[t].refs);
  }

  lemma RestTaken(s: State, t: Tid)
    requires WellFormed(s) && t < |s.threads| && GetsNode(s.threads[t].at) && !s.threads[t].at.GetRef?
    requires WellFormed(GetStep(s, t))
    ensures StepsLeft(GetStep(s, t), t) < StepsLeft(s, t)
  {
    assert s.threads[t].node < |s.nodes|;
    hide WellFormed, Masked;
  }

  /** A count other than zero never becomes that of a flagged node's last reference. */
  lemma CountedUp(refs: nat)
    ensures Masked(refs) != 0 ==> (refs + 1) % WORD != SHOULD_BE_ON_FREELIST + 1
    ensures 0 < refs < SHOULD_BE_ON_FREELIST ==> Masked(refs) != 0
  {
    var q := (refs + 1) / WORD;
    if (refs + 1) % WORD == SHOULD_BE_ON_FREELIST + 1 { ModUnique(refs, 2 * q + 1, SHOULD_BE_ON_FREELIST, 0); }
    if refs < SHOULD_BE_ON_FREELIST { ModUnique(refs, 0, SHOULD_BE_ON_FREELIST, refs); }
  }

  lemma AloneStep(s: State, t: Tid)
    requires Inv(s) && t < |s.threads| && !s.threads[t].at.Idle?
    ensures Inv(Step(s, Advance(t))) && StepsLeft(Step(s, Advance(t)), t) < StepsLeft(s, t)
  {
    StepKeepsInv(s, Advance(t));
    if s.head.Some? {
      HeadCounted(s);
      CountedUp(s.nodes[s.head.value].refs);
    }
    hide AllAgree, ListAgrees, LogAgrees, StepsLeft, AddStep, LinkStep, GetStep, Masked;
    if s.threads[t].at.AddFlag? { AddTaken(s, t); }
    else if InLink(s.threads[t].at) { LinkTaken(s, t); }
    else if s.threads[t].at.GetRef? { RefTaken(s, t); }
    else if GetsNode(s.threads[t].at) { RestTaken(s, t); }
    else { LoopTaken(s, t); }
  }

  lemma {:induction false} AloneRuns(s: State, t: Tid, n: nat)
    requires Inv(s) && t < |s.threads|
    ensures var s' := Alone(s, t, n); Inv(s') && (s'.threads[t].at.Idle? || StepsLeft(s', t) + n <= StepsLeft(s, t))
  {
    hide Inv, WellFormed, StepsLeft, Step;
    KnownWellFormed(s);
    if n > 0 {
      AloneRuns(s, t, n - 1);
      if !Alone(s, t, n - 1).threads[t].at.Idle? { AloneStep(Alone(s, t, n - 1), t); }
    }
  }

  lemma KnownWellFormed(s: State)
    requires Inv(s)
    ensures WellFormed(s)
  {
  }

  /** Whatever a thread is in the middle of, and wherever the others stand still: left alone, it is
      through with its call in eighteen steps. */
  lemma EndsAlone(s: State, t: Tid)
    requires Inv(s) && t < |s.threads|
    ensures Inv(Alone(s, t, 18)) && Alone(s, t, 18).threads[t].at.Idle?
  {
    hide AllAgree, ListAgrees, LogAgrees, StepsLeft, Alone;
    AloneRuns(s, t, 18);
  }

  lemma {:induction false} AloneFirst(s: State, t: Tid, n: nat)
    requires WellFormed(s) && t < |s.threads| && !s.threads[t].at.Idle? && WellFormed(Step(s, Advance(t)))
    ensures Alone(s, t, n + 1) == Alone(Step(s, Advance(t)), t, n)
  {
    hide WellFormed, Step;
    if n > 0 { AloneFirst(s, t, n - 1); }
  }

  /** The two steps that lead to the head's count. */
  lemma LoadsHead(s: State, t: Tid, n: nat)
    requires WellFormed(s) && t < |s.threads| && s.threads[t].at.GetLoad?
    ensures var th := s.threads[t].(head := s.head);
            if s.head.None? then Alone(s, t, n + 2) == Goto(s, t, th.(at := Idle))
            else
              var s' := Goto(s, t, th.(at := GetRef, node := s.head.value, refs := s.nodes[s.head.value].refs));
              WellFormed(s') && Alone(s, t, n + 2) == Alone(s', t, n)
  {
    hide WellFormed, Step, Alone;
    Loads(s, t);
    var s1 := Step(s, Advance(t));
    LooksAtHead(s1, t);
    AloneFirst(s, t, n + 1);
    AloneFirst(s1, t, n);
    GoesOn(s, t, s1.threads[t], Step(s1, Advance(t)).threads[t]);
    if s.head.None? { IdleAlone(Step(s1, Advance(t)), t, n); }
  }

  lemma GoesOn(s: State, t: Tid, one: Thread, two: Thread)
    requires t < |s.threads|
    ensures Goto(Goto(s, t, one), t, two) == Goto(s, t, two)
  {
  }

  lemma Loads(s: State, t: Tid)
    requires WellFormed(s) && t < |s.threads| && s.threads[t].at.GetLoad?
    ensures var s' := Step(s, Advance(t)); WellFormed(s') && s' == Goto(s, t, s.threads[t].(at := GetLoop, head := s.head))
  {
    StepWellFormed(s, Advance(t));
  }

  lemma LooksAtHead(s: State, t: Tid)
    requires WellFormed(s) && t < |s.threads| && s.threads[t].at.GetLoop?
    ensures var th, s' := s.threads[t], Step(s, Advance(t));
            && WellFormed(s')
            && if th.head.None? then s' == Goto(s, t, th.(at := Idle))
               else th.head.value < |s.nodes| && s' == Goto(s, t, th.(at := GetRef, node := th.head.value, refs := s.nodes[th.head.value].refs))
  {
    StepWellFormed(s, Advance(t));
  }

  lemma {:induction false} IdleAlone(s: State, t: Tid, n: nat)
    requires WellFormed(s) && t < |s.threads| && s.threads[t].at.Idle?
    ensures Alone(s, t, n) == s
  {
    hide WellFormed, Step;
    if n > 0 { IdleAlone(s, t, n - 1); }
  }

  /** The four steps that take it off. */
  lemma TakesHead(s: State, t: Tid)
    requires WellFormed(s) && t < |s.threads| && s.threads[t].at.GetRef? && s.head == Some(s.threads[t].node)
    requires s.nodes[s.threads[t].node].refs == s.threads[t].refs && 0 < s.threads[t].refs < SHOULD_BE_ON_FREELIST
    ensures var s' := Alone(s, t, 4);
            && s'.threads[t].at.Idle? && s'.log == s.log + [Got(s.threads[t].node)]
            && s'.list == (if s.list == [] then [] else s.list[1..])
            && (forall u | 0 <= u < |s.threads| && u != t :: s'.threads[u] == s.threads[u])
  {
    hide Alone, IsChain;
    var th := s.threads[t];
    var next := s.nodes[th.node].next;
    TakesReference(s, t);
    StepWellFormed(s, Advance(t));
    var s1 := Step(s, Advance(t));
    StepWellFormed(s1, Advance(t));
    var s2 := Step(s1, Advance(t));
    assert s2 == Goto(s1, t, th.(at := GetCas, head := next));
    TakesNode(s2, t);
    AloneFirst(s, t, 3);
    AloneFirst(s1, t, 2);
  }

  lemma TakesReference(s: State, t: Tid)
    requires WellFormed(s) && t < |s.threads| && s.threads[t].at.GetRef?
    requires s.nodes[s.threads[t].node].refs == s.threads[t].refs && 0 < s.threads[t].refs < SHOULD_BE_ON_FREELIST
    ensures var th := s.threads[t];
            var node := s.nodes[th.node];
            Step(s, Advance(t)) == SetNode(Goto(s, t, th.(at := GetNext)), th.node, node.(refs := node.refs + 1))
  {
  }

  lemma TakesNode(s: State, t: Tid)
    requires WellFormed(s) && t < |s.threads| && s.threads[t].at.GetCas? && s.head == Some(s.threads[t].node)
    ensures var s' := Alone(s, t, 2);
            && s'.threads[t].at.Idle? && s'.log == s.log + [Got(s.threads[t].node)]
            && s'.list == (if s.list == [] then [] else s.list[1..])
            && (forall u | 0 <= u < |s.threads| && u != t :: s'.threads[u] == s.threads[u])
  {
    hide Alone;
    StepWellFormed(s, Advance(t));
    var s1 := Step(s, Advance(t));
    assert s1.threads[t].at.GetTake?;
    StepWellFormed(s1, Advance(t));
    AloneFirst(s, t, 1);
    AloneFirst(s1, t, 0);
    NoSteps(Step(s1, Advance(t)), t);
  }

  lemma NoSteps(s: State, t: Tid)
    requires WellFormed(s) && t < |s.threads|
    ensures Alone(s, t, 0) == s
  {
  }

  /** A call of try_get that nobody disturbs takes the head and returns it, or returns null if there
      is none: in six steps, wherever the other threads stand. */
  lemma TryGetAlone(s: State, t: Tid)
    requires Inv(s) && Enabled(s, CallTryGet(t))
    ensures var s' := Alone(Step(s, CallTryGet(t)), t, 6);
            && Inv(s') && s'.threads[t].at.Idle?
            && (forall u | 0 <= u < |s.threads| && u != t :: s'.threads[u] == s.threads[u])
            && (if s.head.None? then s'.log == s.log && s'.list == s.list && s'.nodes == s.nodes
                else s'.log == s.log + [Got(s.head.value)] && s.list != [] && s'.list == s.list[1..])
  {
    hide AllAgree, ListAgrees, LogAgrees, Alone;
    StepKeepsInv(s, CallTryGet(t));
    var s1 := Step(s, CallTryGet(t));
    AloneRuns(s1, t, 6);
    if s.head.Some? { HeadCounted(s); }
    LoadsHead(s1, t, 4);
    if s.head.Some? {
      var n := s.head.value;
      TakesHead(Goto(s1, t, s1.threads[t].(at := GetRef, head := s.head, node := n, refs := s.nodes[n].refs)), t);
    }
  }

  /** The four steps that put a node at the head. */
  lemma Links(s: State, t: Tid)
    requires WellFormed(s) && t < |s.threads| && s.threads[t].at.LinkLoad? && !s.threads[t].inGet
    ensures var s' := Alone(s, t, 4);
            && s'.threads[t].at.Idle? && s'.log == s.log && s'.head == Some(s.threads[t].node) && s'.list == [s.threads[t].node] + s.list
            && (forall u | 0 <= u < |s.threads| && u != t :: s'.threads[u] == s.threads[u])
  {
    StepWellFormed(s, Advance(t));
    var s1 := Step(s, Advance(t));
    StepWellFormed(s1, Advance(t));
    var s2 := Step(s1, Advance(t));
    StepWellFormed(s2, Advance(t));
    var s3 := Step(s2, Advance(t));
    StepWellFormed(s3, Advance(t));
    hide Alone;
    assert s1.threads[t].at.LinkNext? && s2.threads[t].at.LinkRefs? && s3.threads[t].at.LinkCas?;
    AloneFirst(s, t, 3);
    AloneFirst(s1, t, 2);
    AloneFirst(s2, t, 1);
    AloneFirst(s3, t, 0);
    NoSteps(Step(s3, Advance(t)), t);
  }

  lemma HeldCount(s: State, n: Node)
    requires Inv(s) && n < |s.nodes| && s.nodes[n].life.Held?
    ensures s.nodes[n].refs == 0 <==> Referrers(s.threads, n) == {}
  {
    assert NodeAgrees(s, n);
  }

  /** A call of add that nobody disturbs puts its node at the head in five steps; or, if some try_get
      still holds a reference to it, leaves that to the last of these. */
  lemma AddAlone(s: State, t: Tid, n: Node)
    requires Inv(s) && Enabled(s, CallAdd(t, n))
    ensures var s' := Alone(Step(s, CallAdd(t, n)), t, 5);
            && Inv(s') && s'.threads[t].at.Idle? && s'.log == s.log + [Added(n)]
            && (forall u | 0 <= u < |s.threads| && u != t :: s'.threads[u] == s.threads[u])
            && (if Referrers(s.threads, n) == {} then s'.head == Some(n) && s'.list == [n] + s.list
                else s'.head == s.head && s'.list == s.list && s'.nodes[n].life.Waiting?)
  {
    hide AllAgree, ListAgrees, LogAgrees, Alone, Referrers;
    StepKeepsInv(s, CallAdd(t, n));
    var s1 := Step(s, CallAdd(t, n));
    AloneRuns(s1, t, 5);
    HeldCount(s, n);
    StepWellFormed(s1, Advance(t));
    var s2 := Step(s1, Advance(t));
    AloneFirst(s1, t, 4);
    if s.nodes[n].refs == 0 { Links(s2, t); } else { IdleAlone(s2, t, 4); }
  }
}
