/** The table from threads to their producers (get_or_add_implicit_producer): a chain of hash tables
with linear probing, the newest and largest in front, that grows while other threads search and
insert. Thread exits recycle nothing: the code for that is compiled out.

A transition system with one step per atomic access. Thread t has the id t and an arbitrary hash;
`index & (capacity - 1)` is written as a remainder, the capacities being powers of two (module
CircularIndex). */
module ThreadHash {

  import opened Arithmetic
  import opened Collections

  type Tid = nat
  type Producer = nat

  const INITIAL_IMPLICIT_PRODUCER_HASH_SIZE: nat := 32

  /** Key None is invalid_thread_id. Auxiliary: how many slots the key's owner had to pass. */
  datatype Slot = Slot(key: Option<Tid>, value: Option<Producer>, passed: nat)

  type Table = seq<Slot>

  datatype Label =
    | Idle
    | LoadMain     // load implicitProducerHash
    | Search       // load the key of the next slot
    | AddCount     // implicitProducerHashCount.fetch_add
    | TestFull     // main table half full? then test_and_set the resize flag
    | Reload       // flag acquired: load implicitProducerHash again; the second test
    | Allocate     // malloc; publish the new table
    | DropCount    // no memory: fetch_sub
    | DropFlag     // ... and clear the flag
    | ClearFlag    // clear the flag
    | Decide       // less than three quarters full?
    | LoadAgain    // wait for the thread that allocates
    | Create       // create_producer
    | DropCreate   // no memory: fetch_sub
    | Place        // load the key of the next slot of the main table
    | PlaceKey     // compare_exchange an empty key
    | PlaceValue   // store the value

  /** Locals: the main table when last loaded, the table being searched, the slots passed in it,
      newCount, and the producer found or created. */
  datatype Thread = Thread(at: Label, main: nat, table: nat, probes: nat, newCount: nat, producer: Option<Producer>)

  datatype Return = Return(t: Tid, result: Option<Producer>)

  /** `tables` from the oldest to the newest, which implicitProducerHash points to. Auxiliary: the
      thread that each producer was created for; each thread's reservation (its newCount, unless it
      gave up), the table it was first put in and its producer; what the calls returned. */
  datatype State = State(
    tables: seq<Table>, count: nat, resizing: bool, threads: seq<Thread>, hash: seq<nat>,
    made: seq<Tid>, number: seq<Option<nat>>, home: seq<Option<nat>>, mine: seq<Option<Producer>>, holder: Option<Tid>, returned: seq<Return>)

  datatype Action =
    | Call(t: Tid)
    | Advance(t: Tid, memory: bool)

  predicate Enabled(s: State, a: Action) {
    match a
    case Call(t) => t < |s.threads| && s.threads[t].at.Idle?
    case Advance(t, _) => t < |s.threads| && !s.threads[t].at.Idle?
  }

  /** The slot that a thread with this hash looks at after passing so many. */
  function Pos(hash: nat, passed: nat, capacity: nat): (i: nat)
    ensures capacity > 0 ==> i < capacity
  {
    if capacity == 0 then 0 else (hash + passed) % capacity
  }

  function ThreeQuarters(capacity: nat): nat {
    capacity / 2 + capacity / 4
  }

  predicate PowerOfTwo(n: nat) {
    n == 1 || (n > 1 && n % 2 == 0 && PowerOfTwo(n / 2))
  }

  lemma Doubles(n: nat)
    requires PowerOfTwo(n)
    ensures PowerOfTwo(2 * n)
  {
  }

  /** The doubling loop for newCapacity, in terms of half of it. */
  function Enough(half: nat, newCount: nat): (r: nat)
    requires half > 0
    ensures r >= half && newCount < r
    decreases newCount + 1 - half
  {
    if newCount >= half then Enough(2 * half, newCount) else half
  }

  lemma {:induction false} EnoughIsPower(half: nat, newCount: nat)
    requires half > 0 && PowerOfTwo(half)
    ensures PowerOfTwo(Enough(half, newCount))
    decreases newCount + 1 - half
  {
    if newCount >= half {
      Doubles(half);
      EnoughIsPower(2 * half, newCount);
    }
  }

  /** The loop itself. */
  method NewCapacity(capacity: nat, newCount: nat) returns (newCapacity: nat)
    requires capacity > 0 && PowerOfTwo(capacity)
    ensures newCapacity == 2 * Enough(capacity, newCount) && PowerOfTwo(newCapacity) && newCount < newCapacity / 2
  {
    hide PowerOfTwo;
    newCapacity := 2 * capacity;
    ghost var half := capacity;
    while newCount >= newCapacity / 2
      invariant half > 0 && newCapacity == 2 * half && Enough(half, newCount) == Enough(capacity, newCount)
      decreases newCount + 1 - half
    {
      newCapacity := 2 * newCapacity;
      half := 2 * half;
    }
    EnoughIsPower(capacity, newCount);
    Doubles(Enough(capacity, newCount));
  }

  function EmptyTable(capacity: nat): Table {
    seq(capacity, _ => Slot(None, None, 0))
  }

  // ----- the steps

  function Goto(s: State, t: Tid, th: Thread): State
    requires t < |s.threads|
  {
    s.(threads := s.threads[t := th])
  }

  function Finish(s: State, t: Tid, result: Option<Producer>): State
    requires t < |s.threads|
  {
    s.(threads := s.threads[t := s.threads[t].(at := Idle)], returned := s.returned + [Return(t, result)])
  }

  /** Every thread has its entry in the auxiliary sequences. */
  predicate Sized(s: State) {
    |s.hash| == |s.number| == |s.home| == |s.mine| == |s.threads|
  }

  /** What the thread's next step indexes is there. */
  predicate Safe(s: State, t: Tid) {
    && Sized(s) && t < |s.threads| && s.tables != []
    && s.threads[t].main < |s.tables| && s.threads[t].table < |s.tables|
    && |s.tables[s.threads[t].main]| > 0 && |s.tables[s.threads[t].table]| > 0 && |s.tables[|s.tables| - 1]| > 0
  }

  function SearchStep(s: State, t: Tid): State
    requires Safe(s, t)
  {
    var th := s.threads[t];
    if th.at.LoadMain? then Goto(s, t, Thread(Search, |s.tables| - 1, |s.tables| - 1, 0, 0, None))
    else
      var table := s.tables[th.table];
      var slot := table[Pos(s.hash[t], th.probes, |table|)];
      if slot.key == Some(t) then
        if th.table != th.main then Goto(s, t, th.(at := Place, probes := 0, producer := slot.value))
        else Finish(s, t, slot.value)
      else if slot.key.Some? then Goto(s, t, th.(probes := th.probes + 1))
      else if th.table == 0 then Goto(s, t, th.(at := AddCount))
      else Goto(s, t, th.(table := th.table - 1, probes := 0))
  }

  function GrowStep(s: State, t: Tid, memory: bool): State
    requires Safe(s, t)
  {
    var th := s.threads[t];
    if th.at.TestFull? then
      if th.newCount >= |s.tables[th.main]| / 2 && !s.resizing
      then Goto(s.(resizing := true, holder := Some(t)), t, th.(at := Reload))
      else Goto(s, t, th.(at := Decide))
    else if th.at.Reload? then
      var main := |s.tables| - 1;
      Goto(s, t, th.(main := main, at := if th.newCount >= |s.tables[main]| / 2 then Allocate else ClearFlag))
    else if th.at.Allocate? then
      if !memory then Goto(s, t, th.(at := DropCount))
      else Goto(s.(tables := s.tables + [EmptyTable(2 * Enough(|s.tables[th.main]|, th.newCount))]), t, th.(main := |s.tables|, at := ClearFlag))
    else if th.at.ClearFlag? then Goto(s.(resizing := false, holder := None), t, th.(at := Decide))
    else if th.at.Decide? then Goto(s, t, th.(at := if th.newCount < ThreeQuarters(|s.tables[th.main]|) then Create else LoadAgain))
    else if th.at.LoadAgain? then Goto(s, t, th.(main := |s.tables| - 1, at := TestFull))
    else s
  }

  function CountStep(s: State, t: Tid, memory: bool): State
    requires Safe(s, t)
  {
    var th := s.threads[t];
    var less := if s.count > 0 then s.count - 1 else 0;
    if th.at.AddCount? then
      Goto(s.(count := s.count + 1, number := s.number[t := Some(s.count + 1)]), t, th.(at := TestFull, newCount := s.count + 1))
    else if th.at.DropCount? then Goto(s.(count := less, number := s.number[t := None]), t, th.(at := DropFlag))
    else if th.at.DropFlag? then Finish(s.(resizing := false, holder := None), t, None)
    else if th.at.Create? then
      if !memory then Goto(s, t, th.(at := DropCreate))
      else Goto(s.(made := s.made + [t], mine := s.mine[t := Some(|s.made|)]), t, th.(at := Place, probes := 0, producer := Some(|s.made|)))
    else if th.at.DropCreate? then Finish(s.(count := less, number := s.number[t := None]), t, None)
    else s
  }

  function PlaceStep(s: State, t: Tid): State
    requires Safe(s, t)
  {
    var th := s.threads[t];
    var table := s.tables[th.main];
    var i := Pos(s.hash[t], th.probes, |table|);
    if th.at.Place? then
      if table[i].key.None? then Goto(s, t, th.(at := PlaceKey)) else Goto(s, t, th.(probes := th.probes + 1))
    else if th.at.PlaceKey? then
      if table[i].key.None?
      then Goto(s.(tables := s.tables[th.main := table[i := Slot(Some(t), table[i].value, th.probes)]],
                   home := s.home[t := if s.home[t].None? then Some(th.main) else s.home[t]]),
                t, th.(at := PlaceValue))
      else Goto(s, t, th.(at := Place, probes := th.probes + 1))
    else
      Finish(s.(tables := s.tables[th.main := table[i := table[i].(value := th.producer)]]), t, th.producer)
  }

  predicate Searching(at: Label) {
    at.LoadMain? || at.Search?
  }

  predicate Growing(at: Label) {
    at.TestFull? || at.Reload? || at.Allocate? || at.ClearFlag? || at.Decide? || at.LoadAgain?
  }

  predicate Placing(at: Label) {
    at.Place? || at.PlaceKey? || at.PlaceValue?
  }

  function AdvanceStep(s: State, t: Tid, memory: bool): State
    requires Safe(s, t)
  {
    var at := s.threads[t].at;
    if at.Idle? then s
    else if Searching(at) then SearchStep(s, t)
    else if Growing(at) then GrowStep(s, t, memory)
    else if Placing(at) then PlaceStep(s, t)
    else CountStep(s, t, memory)
  }

  function Step(s: State, a: Action): State
    requires Enabled(s, a) && Safe(s, a.t)
  {
    match a
    case Call(t) => Goto(s, t, s.threads[t].(at := LoadMain))
    case Advance(t, memory) => AdvanceStep(s, t, memory)
  }

  predicate Init(s: State) {
    && s.tables == [EmptyTable(INITIAL_IMPLICIT_PRODUCER_HASH_SIZE)] && s.count == 0 && !s.resizing && s.holder.None?
    && Sized(s) && s.made == [] && s.returned == []
    && forall t | 0 <= t < |s.threads| ::
         s.threads[t] == Thread(Idle, 0, 0, 0, 0, None) && s.number[t] == None && s.home[t] == None && s.mine[t] == None
  }

  // ----- the invariant

  /** The threads whose reservation is at most m. */
  function Upto(number: seq<Option<nat>>, m: nat): set<Tid> {
    set t | 0 <= t < |number| && number[t].Some? && number[t].value <= m
  }

  function Reserved(number: seq<Option<nat>>): set<Tid> {
    set t | 0 <= t < |number| && number[t].Some?
  }

  /** The counting argument: the count is that of the threads with a reservation, and no more than m
      of them have one that is at most m, even after some gave theirs up. */
  ghost predicate CountOk(count: nat, number: seq<Option<nat>>) {
    && count == |Reserved(number)|
    && forall m: nat :: |Upto(number, m)| <= m
  }

  predicate CapacitiesOk(tables: seq<Table>) {
    && tables != []
    && (forall j | 0 <= j < |tables| :: |tables[j]| >= 4 && PowerOfTwo(|tables[j]|))
    && (forall i, j | 0 <= i < j < |tables| :: |tables[i]| < |tables[j]|)
  }

  /** The slots from the hash on, as many as were passed, are taken. */
  predicate PathTaken(table: Table, hash: nat, passed: nat) {
    forall d | 0 <= d < passed :: Pos(hash, d, |table|) < |table| && table[Pos(hash, d, |table|)].key.Some?
  }

  predicate Absent(table: Table, t: Tid) {
    forall i | 0 <= i < |table| :: table[i].key != Some(t)
  }

  /** The thread that has put its key in slot i of table j and not yet its value. */
  predicate Storing(s: State, t: Tid, j: nat, i: nat) {
    && t < |s.threads| == |s.hash| && j < |s.tables| && s.threads[t].at.PlaceValue? && s.threads[t].main == j
    && i == Pos(s.hash[t], s.threads[t].probes, |s.tables[j]|)
  }

  /** A key is where its owner's search will come across it, and reserved early enough for its table
      to have room for it. */
  predicate KeyOk(s: State, j: nat, i: nat) {
    j < |s.tables| && i < |s.tables[j]| && Sized(s) &&
    var slot := s.tables[j][i];
    slot.key.Some? ==>
      var k := slot.key.value;
      && k < |s.threads| && s.number[k].Some? && s.number[k].value < ThreeQuarters(|s.tables[j]|)
      && s.home[k].Some? && s.home[k].value <= j
      && i == Pos(s.hash[k], slot.passed, |s.tables[j]|) && PathTaken(s.tables[j], s.hash[k], slot.passed)
      && (Storing(s, k, j, i) || (slot.value.Some? && slot.value == s.mine[k]))
  }

  predicate Distinct(table: Table) {
    forall i, j | 0 <= i < j < |table| && table[i].key.Some? :: table[i].key != table[j].key
  }

  ghost predicate TablesOk(s: State) {
    && (forall j, i | 0 <= j < |s.tables| && 0 <= i < |s.tables[j]| :: KeyOk(s, j, i))
    && (forall j | 0 <= j < |s.tables| :: Distinct(s.tables[j]))
  }

  predicate Holding(at: Label) {
    at.Reload? || at.Allocate? || at.ClearFlag? || at.DropCount? || at.DropFlag?
  }

  predicate FlagOk(s: State) {
    && s.resizing == s.holder.Some?
    && forall t | 0 <= t < |s.threads| :: Holding(s.threads[t].at) <==> s.holder == Some(t)
  }

  predicate Reserving(at: Label) {
    Growing(at) || at.Create? || at.DropCount? || at.DropCreate?
  }

  ghost predicate ThreadOk(s: State, t: Tid) {
    Sized(s) && t < |s.threads| &&
    var th := s.threads[t];
    && th.main < |s.tables| && th.table < |s.tables|
    && (th.at.Idle? || Searching(th.at) || th.at.AddCount? || th.at.DropFlag? ==> s.home[t].Some? == s.number[t].Some?)
    && (s.home[t].Some? ==> s.home[t].value < |s.tables| && !Absent(s.tables[s.home[t].value], t) && s.mine[t].Some?)
    && (s.mine[t].Some? ==> s.mine[t].value < |s.made| && s.made[s.mine[t].value] == t)
    && (th.at.Search? ==>
          && th.table <= th.main && PathTaken(s.tables[th.table], s.hash[t], th.probes)
          && (forall d | 0 <= d < th.probes :: s.tables[th.table][Pos(s.hash[t], d, |s.tables[th.table]|)].key != Some(t))
          && (forall j | th.table < j < |s.tables| :: Absent(s.tables[j], t)))
    && (th.at.AddCount? || th.at.DropFlag? ==> s.home[t].None?)
    && (Reserving(th.at) ==> s.home[t].None? && s.number[t] == Some(th.newCount))
    && (th.at.Allocate? ==> th.main == |s.tables| - 1)
    && (th.at.Create? ==> th.newCount < ThreeQuarters(|s.tables[th.main]|))
    && (th.at.Place? || th.at.PlaceKey? ==>
          && th.producer.Some? && th.producer == s.mine[t]
          && s.number[t].Some? && s.number[t].value < ThreeQuarters(|s.tables[th.main]|)
          && (s.home[t].Some? ==> s.home[t].value <= th.main)
          && Absent(s.tables[th.main], t) && PathTaken(s.tables[th.main], s.hash[t], th.probes))
    && (th.at.PlaceValue? ==>
          && th.producer.Some? && th.producer == s.mine[t] && s.home[t].Some? && s.number[t].Some?
          && |s.tables[th.main]| > 0 && s.tables[th.main][Pos(s.hash[t], th.probes, |s.tables[th.main]|)].key == Some(t))
  }

  /** A call that returned a producer returned the thread's own. */
  predicate ReturnedOk(s: State) {
    forall r | 0 <= r < |s.returned| && s.returned[r].result.Some? ::
      var t := s.returned[r].t; t < |s.threads| && Sized(s) && s.home[t].Some? && s.returned[r].result == s.mine[t]
  }

  ghost predicate Inv(s: State) {
    && Sized(s) && CapacitiesOk(s.tables) && CountOk(s.count, s.number) && TablesOk(s) && FlagOk(s) && ReturnedOk(s)
    && forall t | 0 <= t < |s.threads| :: ThreadOk(s, t)
  }

  // ----- every table keeps room

  function KeysIn(table: Table, n: nat): set<Tid>
    requires n <= |table|
  {
    set i | 0 <= i < n && table[i].key.Some? :: table[i].key.value
  }

  /** The number of keys among the first n slots. */
  function Taken(table: Table, n: nat): nat
    requires n <= |table|
  {
    if n == 0 then 0 else Taken(table, n - 1) + if table[n - 1].key.Some? then 1 else 0
  }

  /** One more slot adds its key, if it has one. */
  lemma KeysOneMore(table: Table, n: nat)
    requires n < |table|
    ensures KeysIn(table, n + 1) == KeysIn(table, n) + if table[n].key.Some? then {table[n].key.value} else {}
  {
  }

  lemma KeyIsNew(table: Table, n: nat)
    requires n < |table| && Distinct(table) && table[n].key.Some?
    ensures table[n].key.value !in KeysIn(table, n)
  {
  }

  lemma {:induction false} KeysCounted(table: Table, n: nat)
    requires n <= |table| && Distinct(table)
    ensures |KeysIn(table, n)| == Taken(table, n)
  {
    hide KeysIn, Distinct;
    if n == 0 {
      NoKeys(table);
    } else {
      KeysCounted(table, n - 1);
      KeysOneMore(table, n - 1);
      if table[n - 1].key.Some? { KeyIsNew(table, n - 1); }
    }
  }

  lemma NoKeys(table: Table)
    ensures KeysIn(table, 0) == {}
  {
  }

  lemma {:induction false} AllTaken(table: Table, n: nat)
    requires n <= |table| && forall i | 0 <= i < n :: table[i].key.Some?
    ensures Taken(table, n) == n
  {
    if n > 0 { AllTaken(table, n - 1); }
  }

  lemma TableHasRoom(s: State, j: nat)
    requires CapacitiesOk(s.tables) && CountOk(s.count, s.number) && TablesOk(s) && j < |s.tables|
    ensures Taken(s.tables[j], |s.tables[j]|) < ThreeQuarters(|s.tables[j]|)
  {
    var table := s.tables[j];
    var limit := ThreeQuarters(|table|) - 1;
    forall k <- KeysIn(table, |table|) ensures k in Upto(s.number, limit) {
      var i :| 0 <= i < |table| && table[i].key == Some(k);
      assert KeyOk(s, j, i);
    }
    KeysCounted(table, |table|);
    SubsetSize(KeysIn(table, |table|), Upto(s.number, limit));
  }

  lemma PathEnds(table: Table, hash: nat, passed: nat)
    requires PathTaken(table, hash, passed) && Taken(table, |table|) < |table|
    ensures passed < |table|
  {
    if passed >= |table| {
      forall i | 0 <= i < |table| ensures table[i].key.Some? {
        var d := (i - hash) % |table|;
        ReachesAll(i, hash, |table|);
        assert table[Pos(hash, d, |table|)].key.Some?;
      }
      AllTaken(table, |table|);
    }
  }

  lemma ReachesAll(i: nat, hash: nat, capacity: nat)
    requires i < capacity
    ensures 0 <= (i - hash) % capacity < capacity && Pos(hash, (i - hash) % capacity, capacity) == i
  {
    var q := (i - hash) / capacity;
    assert hash + (i - hash) % capacity == i - q * capacity == i + (0 - q) * capacity;
    ModUnique(hash + (i - hash) % capacity, 0 - q, capacity, i);
  }

  // ----- what a step changes

  predicate SlotGrows(old0: Slot, new0: Slot, t: Tid) {
    new0 == old0 || (new0.key == Some(t) && (old0.key.None? || old0.key == Some(t)))
  }

  /** The step is thread t's: it changes only what is t's own, and adds nothing to the tables but
      t's key and value, or an empty table. */
  predicate Changes(s: State, s': State, t: Tid) {
    && Sized(s) && Sized(s') && t < |s.threads| == |s'.threads| && s'.hash == s.hash && s.made <= s'.made
    && (forall u | 0 <= u < |s.threads| && u != t ::
          s'.threads[u] == s.threads[u] && s'.number[u] == s.number[u] && s'.home[u] == s.home[u] && s'.mine[u] == s.mine[u])
    && |s.tables| <= |s'.tables|
    && (forall j | 0 <= j < |s.tables| :: |s'.tables[j]| == |s.tables[j]|)
    && (forall j, i | 0 <= j < |s.tables| && 0 <= i < |s.tables[j]| :: SlotGrows(s.tables[j][i], s'.tables[j][i], t))
    && (forall j, i | |s.tables| <= j < |s'.tables| && 0 <= i < |s'.tables[j]| :: s'.tables[j][i].key.None?)
  }

  lemma PathStays(s: State, s': State, t: Tid, j: nat, hash: nat, passed: nat)
    requires Changes(s, s', t) && j < |s.tables| && PathTaken(s.tables[j], hash, passed)
    ensures PathTaken(s'.tables[j], hash, passed)
  {
  }

  lemma AbsentStays(s: State, s': State, t: Tid, u: Tid, j: nat)
    requires Changes(s, s', t) && u != t && j < |s'.tables| && (j < |s.tables| ==> Absent(s.tables[j], u))
    ensures Absent(s'.tables[j], u)
  {
  }

  lemma PresentStays(s: State, s': State, t: Tid, u: Tid, j: nat)
    requires Changes(s, s', t) && j < |s.tables| && !Absent(s.tables[j], u)
    ensures !Absent(s'.tables[j], u)
  {
  }

  lemma OtherThread(s: State, s': State, t: Tid, u: Tid)
    requires Changes(s, s', t) && u != t && ThreadOk(s, u) && (s.threads[u].at.Allocate? ==> |s'.tables| == |s.tables|)
    ensures ThreadOk(s', u)
  {
    hide PathTaken, Absent, SlotGrows;
    var th := s.threads[u];
    if s.home[u].Some? { PresentStays(s, s', t, u, s.home[u].value); }
    if th.at.Search? {
      PathStays(s, s', t, th.table, s.hash[u], th.probes);
      forall j | th.table < j < |s'.tables| ensures Absent(s'.tables[j], u) { AbsentStays(s, s', t, u, j); }
      PassedOthers(s, s', t, u);
    }
    if th.at.Place? || th.at.PlaceKey? {
      PathStays(s, s', t, th.main, s.hash[u], th.probes);
      AbsentStays(s, s', t, u, th.main);
    }
    if th.at.PlaceValue? { OwnKeyStays(s, s', t, u, th.main, Pos(s.hash[u], th.probes, |s.tables[th.main]|)); }
  }

  lemma OwnKeyStays(s: State, s': State, t: Tid, u: Tid, j: nat, i: nat)
    requires Changes(s, s', t) && j < |s.tables| && i < |s.tables[j]| && s.tables[j][i].key == Some(u)
    ensures s'.tables[j][i].key == Some(u)
  {
  }

  lemma PassedOthers(s: State, s': State, t: Tid, u: Tid)
    requires Changes(s, s', t) && u != t && ThreadOk(s, u) && s.threads[u].at.Search?
    ensures var th := s.threads[u];
            forall d | 0 <= d < th.probes :: s'.tables[th.table][Pos(s.hash[u], d, |s'.tables[th.table]|)].key != Some(u)
  {
  }

  lemma OtherKey(s: State, s': State, t: Tid, j: nat, i: nat)
    requires Changes(s, s', t) && j < |s.tables| && i < |s.tables[j]| && KeyOk(s, j, i) && s'.tables[j][i].key != Some(t)
    ensures KeyOk(s', j, i)
  {
  }

  /** What a step still has to show of itself. */
  ghost predicate StepOk(s': State, t: Tid) {
    && CapacitiesOk(s'.tables) && CountOk(s'.count, s'.number) && FlagOk(s') && ReturnedOk(s') && ThreadOk(s', t)
    && (forall j | 0 <= j < |s'.tables| :: Distinct(s'.tables[j]))
    && (forall j, i | 0 <= j < |s'.tables| && 0 <= i < |s'.tables[j]| && s'.tables[j][i].key == Some(t) :: KeyOk(s', j, i))
  }

  lemma ChangesKeepInv(s: State, s': State, t: Tid)
    requires Inv(s) && Changes(s, s', t) && StepOk(s', t) && (|s'.tables| > |s.tables| ==> Holding(s.threads[t].at))
    ensures Inv(s')
  {
    hide ThreadOk, CountOk, ReturnedOk, CapacitiesOk, Distinct, SlotGrows, PathTaken;
    forall u | 0 <= u < |s'.threads| ensures ThreadOk(s', u) {
      if u != t { OtherThread(s, s', t, u); }
    }
    forall j, i | 0 <= j < |s'.tables| && 0 <= i < |s'.tables[j]| ensures KeyOk(s', j, i) {
      if s'.tables[j][i].key != Some(t) && j < |s.tables| {
        assert KeyOk(s, j, i);
        OtherKey(s, s', t, j, i);
      }
    }
  }

  // ----- every step keeps the invariant

  /** A step that touches neither tables nor reservations. */
  predicate Quiet(s: State, s': State, t: Tid) {
    && Sized(s) && t < |s.threads| == |s'.threads|
    && s' == s.(threads := s.threads[t := s'.threads[t]], resizing := s'.resizing, holder := s'.holder, returned := s'.returned)
    && !s.threads[t].at.PlaceValue? && !s'.threads[t].at.PlaceValue?
  }

  lemma QuietKeepsInv(s: State, s': State, t: Tid)
    requires Inv(s) && Quiet(s, s', t) && FlagOk(s') && ReturnedOk(s') && ThreadOk(s', t)
    ensures Inv(s')
  {
    hide ThreadOk, CountOk, ReturnedOk, FlagOk, CapacitiesOk, Distinct, PathTaken;
    forall j, i | 0 <= j < |s'.tables| && 0 <= i < |s'.tables[j]| && s'.tables[j][i].key == Some(t) ensures KeyOk(s', j, i) {
      assert KeyOk(s, j, i);
    }
    ChangesKeepInv(s, s', t);
  }

  lemma ThreadSafe(s: State, t: Tid)
    requires Inv(s) && t < |s.threads|
    ensures Safe(s, t) && ThreadOk(s, t)
  {
    hide CountOk, TablesOk, FlagOk, ReturnedOk;
    assert ThreadOk(s, t);
  }

  predicate PassedOthersIn(table: Table, hash: nat, probes: nat, t: Tid) {
    forall d | 0 <= d < probes ::
      var i := Pos(hash, d, |table|); i < |table| && table[i].key.Some? && table[i].key != Some(t)
  }

  lemma NotThere(table: Table, hash: nat, probes: nat, t: Tid, i: nat)
    requires i < |table| && PassedOthersIn(table, hash, probes, t) && table[Pos(hash, probes, |table|)].key.None?
    requires table[i].key == Some(t) ==> i == Pos(hash, table[i].passed, |table|) && PathTaken(table, hash, table[i].passed)
    ensures table[i].key != Some(t)
  {
  }

  /** A registered thread finds itself: where its search of a table ends at an empty slot, it is not
      in that table. */
  lemma MissMeansAbsent(s: State, t: Tid)
    requires Inv(s) && t < |s.threads| && s.threads[t].at.Search?
    requires var th := s.threads[t];
             Safe(s, t) && s.tables[th.table][Pos(s.hash[t], th.probes, |s.tables[th.table]|)].key.None?
    ensures Absent(s.tables[s.threads[t].table], t)
  {
    hide CountOk, CapacitiesOk, FlagOk, ReturnedOk, Distinct;
    var th := s.threads[t];
    var table := s.tables[th.table];
    assert ThreadOk(s, t);
    forall i | 0 <= i < |table| ensures table[i].key != Some(t) {
      assert KeyOk(s, th.table, i);
      NotThere(table, s.hash[t], th.probes, t, i);
    }
  }

  lemma FoundIsMine(s: State, t: Tid, j: nat, i: nat)
    requires Inv(s) && t < |s.threads| && s.threads[t].at.Search? && j < |s.tables| && i < |s.tables[j]| && s.tables[j][i].key == Some(t)
    ensures s.home[t].Some? && s.home[t].value <= j && s.mine[t].Some? && s.tables[j][i].value == s.mine[t]
    ensures s.number[t].Some? && s.number[t].value < ThreeQuarters(|s.tables[j]|)
  {
    assert KeyOk(s, j, i);
  }

  lemma SearchLands(s: State, t: Tid)
    requires Inv(s) && t < |s.threads| && s.threads[t].at.Search?
    ensures Safe(s, t)
    ensures var th := s.threads[t];
            var i := Pos(s.hash[t], th.probes, |s.tables[th.table]|);
            var slot := s.tables[th.table][i];
            && (slot.key == Some(t) ==>
                  && s.home[t].Some? && s.home[t].value <= th.table && s.mine[t].Some? && slot.value == s.mine[t]
                  && s.number[t].Some? && s.number[t].value < ThreeQuarters(|s.tables[th.table]|))
            && (slot.key.None? ==> Absent(s.tables[th.table], t))
  {
    ThreadSafe(s, t);
    hide Inv, ThreadOk;
    var th := s.threads[t];
    var table := s.tables[th.table];
    var i := Pos(s.hash[t], th.probes, |table|);
    if table[i].key == Some(t) { FoundIsMine(s, t, th.table, i); }
    else if table[i].key.None? { MissMeansAbsent(s, t); }
  }

  lemma LoadMainThread(s: State, t: Tid)
    requires Inv(s) && t < |s.threads| && s.threads[t].at.LoadMain?
    ensures Safe(s, t) && ThreadOk(SearchStep(s, t), t)
  {
    hide CountOk, TablesOk, FlagOk, ReturnedOk, Distinct, Absent, PathTaken;
    ThreadSafe(s, t);
    NoPath(s.tables[|s.tables| - 1], s.hash[t]);
  }

  lemma NoPath(table: Table, hash: nat)
    ensures PathTaken(table, hash, 0)
  {
  }

  lemma SearchThread(s: State, t: Tid)
    requires Inv(s) && t < |s.threads| && s.threads[t].at.Search?
    ensures Safe(s, t) && ThreadOk(SearchStep(s, t), t)
  {
    hide CountOk, TablesOk, FlagOk, ReturnedOk, Distinct, Absent, PathTaken, Pos;
    ThreadSafe(s, t);
    SearchLands(s, t);
    var th := s.threads[t];
    var table := s.tables[th.table];
    NoPath(s.tables[th.main], s.hash[t]);
    if table[Pos(s.hash[t], th.probes, |table|)].key.Some? { PathGrows(table, s.hash[t], th.probes); }
    else if th.table > 0 { NoPath(s.tables[th.table - 1], s.hash[t]); }
  }

  lemma SearchReturns(s: State, t: Tid)
    requires Inv(s) && t < |s.threads| && Searching(s.threads[t].at)
    ensures Safe(s, t) && ReturnedOk(SearchStep(s, t)) && FlagOk(SearchStep(s, t)) && Quiet(s, SearchStep(s, t), t)
  {
    hide CountOk, TablesOk, ThreadOk, Distinct, Absent;
    ThreadSafe(s, t);
    if s.threads[t].at.Search? { SearchLands(s, t); }
  }

  lemma SearchKeepsInv(s: State, t: Tid)
    requires Inv(s) && t < |s.threads| && Searching(s.threads[t].at)
    ensures Safe(s, t) && Inv(SearchStep(s, t))
  {
    hide Inv, ThreadOk, ReturnedOk, FlagOk, Quiet, SearchStep, Safe;
    if s.threads[t].at.Search? { SearchThread(s, t); } else { LoadMainThread(s, t); }
    SearchReturns(s, t);
    QuietKeepsInv(s, SearchStep(s, t), t);
  }

  lemma GrowThread(s: State, t: Tid, memory: bool)
    requires Inv(s) && t < |s.threads| && Growing(s.threads[t].at) && !(memory && s.threads[t].at.Allocate?)
    ensures Safe(s, t)
    ensures var s' := GrowStep(s, t, memory); ThreadOk(s', t) && FlagOk(s') && ReturnedOk(s') && Quiet(s, s', t)
  {
    hide CountOk, TablesOk, Distinct, Absent, PathTaken, CapacitiesOk, Pos, EmptyTable;
    ThreadSafe(s, t);
  }

  lemma EmptyTableOk(tables: seq<Table>, capacity: nat)
    requires CapacitiesOk(tables) && capacity > |tables[|tables| - 1]| && PowerOfTwo(capacity)
    ensures CapacitiesOk(tables + [EmptyTable(capacity)]) && Distinct(EmptyTable(capacity))
  {
  }

  lemma PublishChanges(s: State, t: Tid)
    requires Inv(s) && t < |s.threads| && s.threads[t].at.Allocate?
    ensures Safe(s, t) && Changes(s, GrowStep(s, t, true), t)
  {
    hide CountOk, TablesOk, FlagOk, ReturnedOk, Distinct, Absent, PathTaken, CapacitiesOk;
    ThreadSafe(s, t);
  }

  lemma PublishOk(s: State, t: Tid)
    requires Inv(s) && t < |s.threads| && s.threads[t].at.Allocate?
    ensures Safe(s, t) && StepOk(GrowStep(s, t, true), t)
  {
    ThreadSafe(s, t);
    var th, s' := s.threads[t], GrowStep(s, t, true);
    EnoughIsPower(|s.tables[th.main]|, th.newCount);
    Doubles(Enough(|s.tables[th.main]|, th.newCount));
    EmptyTableOk(s.tables, 2 * Enough(|s.tables[th.main]|, th.newCount));
    hide CountOk, PathTaken, CapacitiesOk, Distinct, Enough;
    forall j, i | 0 <= j < |s.tables| && 0 <= i < |s.tables[j]| ensures s.tables[j][i].key != Some(t) { NotAKey(s, t, j, i); }
  }

  lemma NotAKey(s: State, t: Tid, j: nat, i: nat)
    requires Inv(s) && t < |s.threads| && s.home[t].None? && j < |s.tables| && i < |s.tables[j]|
    ensures s.tables[j][i].key != Some(t)
  {
    assert KeyOk(s, j, i);
  }

  lemma HomelessAbsent(s: State, t: Tid, j: nat)
    requires Inv(s) && t < |s.threads| && s.home[t].None? && j < |s.tables|
    ensures Absent(s.tables[j], t)
  {
    forall i | 0 <= i < |s.tables[j]| ensures s.tables[j][i].key != Some(t) { NotAKey(s, t, j, i); }
  }

  lemma GrowKeepsInv(s: State, t: Tid, memory: bool)
    requires Inv(s) && t < |s.threads| && Growing(s.threads[t].at)
    ensures Safe(s, t) && Inv(GrowStep(s, t, memory))
  {
    hide Inv, ThreadOk, ReturnedOk, FlagOk, Quiet, GrowStep, Safe, Changes, StepOk;
    if memory && s.threads[t].at.Allocate? {
      PublishChanges(s, t);
      PublishOk(s, t);
      ChangesKeepInv(s, GrowStep(s, t, true), t);
    } else {
      GrowThread(s, t, memory);
      QuietKeepsInv(s, GrowStep(s, t, memory), t);
    }
  }

  // ----- reservations

  lemma ReserveCounts(count: nat, number: seq<Option<nat>>, t: Tid)
    requires CountOk(count, number) && t < |number| && number[t].None?
    ensures CountOk(count + 1, number[t := Some(count + 1)])
  {
    var number' := number[t := Some(count + 1)];
    assert Reserved(number') == Reserved(number) + {t};
    forall m: nat ensures |Upto(number', m)| <= m {
      if m <= count {
        assert Upto(number', m) == Upto(number, m);
      } else {
        SubsetSize(Upto(number', m), Reserved(number'));
      }
    }
  }

  lemma DropCounts(count: nat, number: seq<Option<nat>>, t: Tid)
    requires CountOk(count, number) && t < |number| && number[t].Some?
    ensures count > 0 && CountOk(count - 1, number[t := None])
  {
    var number' := number[t := None];
    assert t in Reserved(number) && Reserved(number') == Reserved(number) - {t};
    forall m: nat ensures |Upto(number', m)| <= m { SubsetSize(Upto(number', m), Upto(number, m)); }
  }

  lemma CountCounts(s: State, t: Tid, memory: bool)
    requires Inv(s) && t < |s.threads| && Safe(s, t)
    requires var at := s.threads[t].at; at.AddCount? || at.DropCount? || at.DropFlag? || at.Create? || at.DropCreate?
    ensures var s' := CountStep(s, t, memory); CountOk(s'.count, s'.number) && Changes(s, s', t)
  {
    hide TablesOk, Distinct, Absent, PathTaken, CapacitiesOk, FlagOk, ReturnedOk;
    assert ThreadOk(s, t);
    if s.threads[t].at.AddCount? { ReserveCounts(s.count, s.number, t); }
    if s.threads[t].at.DropCount? || s.threads[t].at.DropCreate? { DropCounts(s.count, s.number, t); }
    hide CountOk;
  }

  lemma CountThread(s: State, t: Tid, memory: bool)
    requires Inv(s) && t < |s.threads| && Safe(s, t)
    requires var at := s.threads[t].at; at.AddCount? || at.DropCount? || at.DropFlag? || at.Create? || at.DropCreate?
    ensures ThreadOk(CountStep(s, t, memory), t)
  {
    hide TablesOk, Distinct, PathTaken, Absent, CapacitiesOk, ReturnedOk, CountOk, FlagOk;
    assert ThreadOk(s, t);
    if s.home[t].None? { HomelessAbsent(s, t, s.threads[t].main); }
    NoPath(s.tables[s.threads[t].main], s.hash[t]);
  }

  lemma CountReturns(s: State, t: Tid, memory: bool)
    requires Inv(s) && t < |s.threads| && Safe(s, t)
    requires var at := s.threads[t].at; at.AddCount? || at.DropCount? || at.DropFlag? || at.Create? || at.DropCreate?
    ensures ReturnedOk(CountStep(s, t, memory)) && FlagOk(CountStep(s, t, memory))
  {
    hide TablesOk, Distinct, Absent, PathTaken, CapacitiesOk, CountOk;
    assert ThreadOk(s, t);
  }

  lemma CountKeepsInv(s: State, t: Tid, memory: bool)
    requires Inv(s) && t < |s.threads|
    requires var at := s.threads[t].at; at.AddCount? || at.DropCount? || at.DropFlag? || at.Create? || at.DropCreate?
    ensures Safe(s, t) && Inv(CountStep(s, t, memory))
  {
    hide ReturnedOk, FlagOk, CountOk, Changes, Distinct, CapacitiesOk, Absent, PathTaken;
    ThreadSafe(s, t);
    CountCounts(s, t, memory);
    CountThread(s, t, memory);
    CountReturns(s, t, memory);
    var s' := CountStep(s, t, memory);
    assert s'.tables == s.tables && s.home[t].None?;
    forall j, i | 0 <= j < |s.tables| && 0 <= i < |s.tables[j]| ensures s.tables[j][i].key != Some(t) { NotAKey(s, t, j, i); }
    ChangesKeepInv(s, s', t);
  }

  // ----- putting the key in

  lemma ProbeThread(s: State, t: Tid)
    requires Inv(s) && t < |s.threads| && Safe(s, t)
    requires var th := s.threads[t];
             th.at.Place? || (th.at.PlaceKey? && s.tables[th.main][Pos(s.hash[t], th.probes, |s.tables[th.main]|)].key.Some?)
    ensures ThreadOk(PlaceStep(s, t), t)
  {
    hide TablesOk, Distinct, Absent, CapacitiesOk, CountOk, ReturnedOk, FlagOk, PathTaken;
    assert ThreadOk(s, t);
    var th := s.threads[t];
    var table := s.tables[th.main];
    if table[Pos(s.hash[t], th.probes, |table|)].key.Some? && PathTaken(table, s.hash[t], th.probes) { PathGrows(table, s.hash[t], th.probes); }
  }

  lemma PathGrows(table: Table, hash: nat, passed: nat)
    requires PathTaken(table, hash, passed) && |table| > 0 && table[Pos(hash, passed, |table|)].key.Some?
    ensures PathTaken(table, hash, passed + 1)
  {
  }

  lemma PlaceProbes(s: State, t: Tid)
    requires Inv(s) && t < |s.threads| && Safe(s, t)
    requires var th := s.threads[t];
             th.at.Place? || (th.at.PlaceKey? && s.tables[th.main][Pos(s.hash[t], th.probes, |s.tables[th.main]|)].key.Some?)
    ensures Inv(PlaceStep(s, t))
  {
    hide TablesOk, CapacitiesOk, CountOk, ReturnedOk, ThreadOk;
    var s' := PlaceStep(s, t);
    ProbeThread(s, t);
    SameReturns(s, s');
    QuietKeepsInv(s, s', t);
  }

  lemma SameReturns(s: State, s': State)
    requires ReturnedOk(s) && s'.returned == s.returned && s'.mine == s.mine && |s'.threads| == |s.threads| && Sized(s')
    requires |s.home| == |s'.home| && forall t | 0 <= t < |s.home| :: s.home[t].Some? ==> s'.home[t].Some?
    ensures ReturnedOk(s')
  {
  }

  lemma KeyChanges(s: State, t: Tid)
    requires Inv(s) && t < |s.threads| && Safe(s, t) && s.threads[t].at.PlaceKey?
    ensures Changes(s, PlaceStep(s, t), t)
  {
    hide TablesOk, Distinct, PathTaken, Absent, CapacitiesOk, CountOk, ReturnedOk, FlagOk;
    assert ThreadOk(s, t);
  }

  /** The key just put in. */
  lemma NewKeyOk(s: State, t: Tid)
    requires Inv(s) && t < |s.threads| && Safe(s, t) && s.threads[t].at.PlaceKey?
    requires var th := s.threads[t]; s.tables[th.main][Pos(s.hash[t], th.probes, |s.tables[th.main]|)].key.None?
    ensures var th := s.threads[t];
            var s' := PlaceStep(s, t);
            KeyOk(s', th.main, Pos(s.hash[t], th.probes, |s.tables[th.main]|))
  {
    hide TablesOk, Distinct, Absent, CapacitiesOk, CountOk, ReturnedOk, FlagOk;
    assert ThreadOk(s, t);
    var th := s.threads[t];
    KeyChanges(s, t);
    PathStays(s, PlaceStep(s, t), t, th.main, s.hash[t], th.probes);
    hide PathTaken;
  }

  /** The keys that t has in other tables. */
  lemma OlderKeyOk(s: State, t: Tid, j: nat, i: nat)
    requires Inv(s) && t < |s.threads| && Safe(s, t) && s.threads[t].at.PlaceKey?
    requires var th := s.threads[t]; s.tables[th.main][Pos(s.hash[t], th.probes, |s.tables[th.main]|)].key.None?
    requires j < |s.tables| && i < |s.tables[j]| && s.tables[j][i].key == Some(t)
    ensures KeyOk(PlaceStep(s, t), j, i)
  {
    hide Distinct, CapacitiesOk, CountOk, ReturnedOk, FlagOk;
    assert ThreadOk(s, t);
    assert KeyOk(s, j, i);
    assert j != s.threads[t].main;
    KeyChanges(s, t);
    PathStays(s, PlaceStep(s, t), t, j, s.hash[t], s.tables[j][i].passed);
    hide PathTaken;
  }

  lemma OwnKeysOk(s: State, t: Tid)
    requires Inv(s) && t < |s.threads| && Safe(s, t) && s.threads[t].at.PlaceKey?
    requires var th := s.threads[t]; s.tables[th.main][Pos(s.hash[t], th.probes, |s.tables[th.main]|)].key.None?
    ensures var s' := PlaceStep(s, t);
            forall j, i | 0 <= j < |s'.tables| && 0 <= i < |s'.tables[j]| && s'.tables[j][i].key == Some(t) :: KeyOk(s', j, i)
  {
    hide Inv, KeyOk;
    var s', th := PlaceStep(s, t), s.threads[t];
    NewKeyOk(s, t);
    forall j, i | 0 <= j < |s'.tables| && 0 <= i < |s'.tables[j]| && s'.tables[j][i].key == Some(t) ensures KeyOk(s', j, i) {
      if !(j == th.main && i == Pos(s.hash[t], th.probes, |s.tables[th.main]|)) { OlderKeyOk(s, t, j, i); }
    }
  }

  lemma KeyStaysDistinct(table: Table, i: nat, t: Tid, passed: nat)
    requires Distinct(table) && i < |table| && Absent(table, t)
    ensures Distinct(table[i := Slot(Some(t), table[i].value, passed)])
  {
  }

  lemma KeyThread(s: State, t: Tid)
    requires Inv(s) && t < |s.threads| && Safe(s, t) && s.threads[t].at.PlaceKey?
    requires var th := s.threads[t]; s.tables[th.main][Pos(s.hash[t], th.probes, |s.tables[th.main]|)].key.None?
    ensures var s' := PlaceStep(s, t); ThreadOk(s', t) && FlagOk(s')
  {
    hide TablesOk, Distinct, PathTaken, Absent, CapacitiesOk, CountOk, ReturnedOk, Changes;
    assert ThreadOk(s, t);
    var s', th := PlaceStep(s, t), s.threads[t];
    KeyChanges(s, t);
    KeyPresent(s'.tables[th.main], Pos(s.hash[t], th.probes, |s.tables[th.main]|), t);
    if s.home[t].Some? { PresentStays(s, s', t, t, s.home[t].value); }
  }

  lemma KeyPresent(table: Table, i: nat, t: Tid)
    requires i < |table| && table[i].key == Some(t)
    ensures !Absent(table, t)
  {
  }

  lemma KeyKeepsInv(s: State, t: Tid)
    requires Inv(s) && t < |s.threads| && Safe(s, t) && s.threads[t].at.PlaceKey?
    requires var th := s.threads[t]; s.tables[th.main][Pos(s.hash[t], th.probes, |s.tables[th.main]|)].key.None?
    ensures Inv(PlaceStep(s, t))
  {
    hide KeyOk, PathTaken, Absent, CountOk, Changes, FlagOk, ReturnedOk, Distinct, Safe;
    assert ThreadOk(s, t);
    var s', th := PlaceStep(s, t), s.threads[t];
    KeyChanges(s, t);
    OwnKeysOk(s, t);
    KeyThread(s, t);
    KeyStaysDistinct(s.tables[th.main], Pos(s.hash[t], th.probes, |s.tables[th.main]|), t, th.probes);
    SameReturns(s, s');
    hide ThreadOk;
    ChangesKeepInv(s, s', t);
  }

  lemma ValueChanges(s: State, t: Tid)
    requires Inv(s) && t < |s.threads| && Safe(s, t) && s.threads[t].at.PlaceValue?
    ensures Changes(s, PlaceStep(s, t), t)
  {
    hide TablesOk, Distinct, PathTaken, Absent, CapacitiesOk, CountOk, ReturnedOk, FlagOk;
    assert ThreadOk(s, t);
  }

  lemma StoredKeyOk(s: State, t: Tid, j: nat, i: nat)
    requires Inv(s) && t < |s.threads| && Safe(s, t) && s.threads[t].at.PlaceValue?
    requires j < |s.tables| && i < |s.tables[j]| && s.tables[j][i].key == Some(t)
    ensures KeyOk(PlaceStep(s, t), j, i)
  {
    hide Distinct, CapacitiesOk, CountOk, ReturnedOk, FlagOk, PathTaken, Absent;
    assert ThreadOk(s, t);
    assert KeyOk(s, j, i);
    ValueChanges(s, t);
    PathStays(s, PlaceStep(s, t), t, j, s.hash[t], s.tables[j][i].passed);
  }

  lemma ValueThread(s: State, t: Tid)
    requires Inv(s) && t < |s.threads| && Safe(s, t) && s.threads[t].at.PlaceValue?
    ensures var s' := PlaceStep(s, t); ThreadOk(s', t) && FlagOk(s') && ReturnedOk(s')
  {
    hide TablesOk, Distinct, PathTaken, Absent, CapacitiesOk, CountOk, Changes;
    assert ThreadOk(s, t);
    ValueChanges(s, t);
    PresentStays(s, PlaceStep(s, t), t, t, s.home[t].value);
  }

  lemma ValueStaysDistinct(table: Table, i: nat, value: Option<Producer>)
    requires Distinct(table) && i < |table|
    ensures Distinct(table[i := table[i].(value := value)])
  {
  }

  lemma ValueKeepsInv(s: State, t: Tid)
    requires Inv(s) && t < |s.threads| && Safe(s, t) && s.threads[t].at.PlaceValue?
    ensures Inv(PlaceStep(s, t))
  {
    hide KeyOk, PathTaken, Absent, CountOk, FlagOk, ReturnedOk, Distinct;
    assert ThreadOk(s, t);
    var s', th := PlaceStep(s, t), s.threads[t];
    ValueChanges(s, t);
    ValueThread(s, t);
    forall j, i | 0 <= j < |s'.tables| && 0 <= i < |s'.tables[j]| && s'.tables[j][i].key == Some(t) ensures KeyOk(s', j, i) {
      StoredKeyOk(s, t, j, i);
    }
    ValueStaysDistinct(s.tables[th.main], Pos(s.hash[t], th.probes, |s.tables[th.main]|), th.producer);
    ChangesKeepInv(s, s', t);
  }

  // ----- all steps, and whole runs

  lemma CallKeepsInv(s: State, t: Tid)
    requires Inv(s) && Enabled(s, Call(t))
    ensures Safe(s, t) && Inv(Step(s, Call(t)))
  {
    ThreadSafe(s, t);
    hide TablesOk, Distinct, PathTaken, Absent, CapacitiesOk, CountOk;
    QuietKeepsInv(s, Step(s, Call(t)), t);
  }

  lemma StepKeepsInv(s: State, a: Action)
    requires Inv(s) && Enabled(s, a)
    ensures Safe(s, a.t) && Inv(Step(s, a))
  {
    hide Inv, SearchStep, GrowStep, CountStep, PlaceStep;
    var t := a.t;
    assert Safe(s, t) by { ThreadSafe(s, t); }
    var th := s.threads[t];
    if a.Call? { CallKeepsInv(s, t); }
    else if Searching(th.at) { SearchKeepsInv(s, t); }
    else if Growing(th.at) { GrowKeepsInv(s, t, a.memory); }
    else if th.at.PlaceValue? { ValueKeepsInv(s, t); }
    else if th.at.PlaceKey? && s.tables[th.main][Pos(s.hash[t], th.probes, |s.tables[th.main]|)].key.None? { KeyKeepsInv(s, t); }
    else if Placing(th.at) { PlaceProbes(s, t); }
    else { CountKeepsInv(s, t, a.memory); }
  }

  lemma InitHasInv(s: State)
    requires Init(s)
    ensures Inv(s)
  {
    assert Reserved(s.number) == {};
    forall m: nat ensures |Upto(s.number, m)| <= m { assert Upto(s.number, m) == {}; }
    forall t | 0 <= t < |s.threads| ensures ThreadOk(s, t) {}
  }

  /** The state after a schedule; an action that is not enabled when its turn comes is skipped. */
  function Run(s: State, schedule: seq<Action>): State {
    if schedule == [] then s
    else
      var before := Run(s, schedule[..|schedule| - 1]);
      var a := schedule[|schedule| - 1];
      if Enabled(before, a) && Safe(before, a.t) then Step(before, a) else before
  }

  lemma {:induction false} RunKeepsInv(s: State, schedule: seq<Action>)
    requires Inv(s)
    ensures Inv(Run(s, schedule))
  {
    hide Inv, Step, Safe;
    if schedule != [] {
      RunKeepsInv(s, schedule[..|schedule| - 1]);
      var before := Run(s, schedule[..|schedule| - 1]);
      var a := schedule[|schedule| - 1];
      if Enabled(before, a) { StepKeepsInv(before, a); }
    }
  }

  /** In every reachable state every table of the chain, including those that keys are copied into
      lazily and those that were too full for a thread that then got no memory, has fewer keys
      than half plus a quarter of its slots. */
  lemma TablesNeverFill(s0: State, schedule: seq<Action>, j: nat)
    requires Init(s0) && j < |Run(s0, schedule).tables|
    ensures var table := Run(s0, schedule).tables[j]; Taken(table, |table|) < ThreeQuarters(|table|)
  {
    hide Init, Taken;
    InitHasInv(s0);
    RunKeepsInv(s0, schedule);
    TableHasRoom(Run(s0, schedule), j);
  }

  /** So every probe loop ends: no thread ever passes as many slots as its table has, be it searching
      or looking for a place. */
  lemma ProbesEnd(s0: State, schedule: seq<Action>, t: Tid)
    requires Init(s0) && t < |Run(s0, schedule).threads|
    ensures var s := Run(s0, schedule);
            var th := s.threads[t];
            && (th.at.Search? ==> th.table < |s.tables| && th.probes < |s.tables[th.table]|)
            && (th.at.Place? || th.at.PlaceKey? ==> th.main < |s.tables| && th.probes < |s.tables[th.main]|)
  {
    InitHasInv(s0);
    RunKeepsInv(s0, schedule);
    var s := Run(s0, schedule);
    hide Init, Run, Taken, PathTaken, KeyOk, Distinct, Absent, CountOk;
    assert ThreadOk(s, t);
    var th := s.threads[t];
    if th.at.Search? {
      TableHasRoom(s, th.table);
      PathEnds(s.tables[th.table], s.hash[t], th.probes);
    }
    if th.at.Place? || th.at.PlaceKey? {
      TableHasRoom(s, th.main);
      PathEnds(s.tables[th.main], s.hash[t], th.probes);
    }
  }

  /** Calls by the same thread return the same producer, and calls by different threads different
      ones, however many tables there are by then. */
  lemma EveryThreadItsOwn(s0: State, schedule: seq<Action>, i: nat, j: nat)
    requires Init(s0)
    requires var r := Run(s0, schedule).returned; i < |r| && j < |r| && r[i].result.Some? && r[j].result.Some?
    ensures var r := Run(s0, schedule).returned; r[i].t == r[j].t <==> r[i].result == r[j].result
  {
    InitHasInv(s0);
    RunKeepsInv(s0, schedule);
    var s := Run(s0, schedule);
    hide Init, Run, TablesOk, CountOk, FlagOk, PathTaken, Absent;
    assert ThreadOk(s, s.returned[i].t) && ThreadOk(s, s.returned[j].t);
  }

  /** Once a thread's call has returned a producer, no later one returns nothing. */
  predicate NeverLost(returned: seq<Return>) {
    forall i, j | 0 <= i < j < |returned| && returned[i].t == returned[j].t && returned[i].result.Some? :: returned[j].result.Some?
  }

  /** A call that returns nothing is one of a thread that is in no table. */
  lemma ReturnsWhat(s: State, a: Action)
    requires Inv(s) && Enabled(s, a) && Safe(s, a.t)
    ensures var r, r' := s.returned, Step(s, a).returned;
            r' == r || (|r'| == |r| + 1 && r <= r' && r'[|r|].t == a.t && (r'[|r|].result.None? ==> s.home[a.t].None?))
  {
    hide TablesOk, CountOk, FlagOk, PathTaken, Absent, CapacitiesOk, ReturnedOk;
    assert ThreadOk(s, a.t);
    if s.threads[a.t].at.Search? { SearchLands(s, a.t); }
  }

  lemma StepNeverLoses(s: State, a: Action)
    requires Inv(s) && Enabled(s, a) && Safe(s, a.t) && NeverLost(s.returned)
    ensures NeverLost(Step(s, a).returned)
  {
    hide Inv, Step, NeverLost;
    ReturnsWhat(s, a);
    var r, r' := s.returned, Step(s, a).returned;
    if r' != r {
      if r'[|r|].result.None? { HomelessReturns(s, a.t); }
      OneMoreReturn(r, r');
    }
  }

  /** A thread that is in no table has been returned nothing so far. */
  lemma HomelessReturns(s: State, t: Tid)
    requires Inv(s) && t < |s.threads| && s.home[t].None?
    ensures forall i | 0 <= i < |s.returned| && s.returned[i].t == t :: s.returned[i].result.None?
  {
    hide TablesOk, CountOk, FlagOk, CapacitiesOk, ThreadOk;
  }

  lemma OneMoreReturn(r: seq<Return>, r': seq<Return>)
    requires NeverLost(r) && |r'| == |r| + 1 && r <= r'
    requires r'[|r|].result.None? ==> forall i | 0 <= i < |r| && r[i].t == r'[|r|].t :: r[i].result.None?
    ensures NeverLost(r')
  {
  }

  lemma {:induction false} RegisteredForGood(s0: State, schedule: seq<Action>)
    requires Init(s0)
    ensures NeverLost(Run(s0, schedule).returned)
  {
    if schedule != [] {
      var rest := schedule[..|schedule| - 1];
      RegisteredForGood(s0, rest);
      InitHasInv(s0);
      RunKeepsInv(s0, rest);
      var before, a := Run(s0, rest), schedule[|schedule| - 1];
      hide Init, Inv, Step;
      if Enabled(before, a) && Safe(before, a.t) { StepNeverLoses(before, a); }
    }
  }

  // ----- when a call returns nothing

  /** The step is refused the memory it asks for. */
  predicate Refuses(s: State, a: Action) {
    a.Advance? && a.t < |s.threads| && !a.memory && (s.threads[a.t].at.Allocate? || s.threads[a.t].at.Create?)
  }

  /** In such a run, the call that t made last was refused memory. */
  predicate Refused(s: State, schedule: seq<Action>, t: Tid) {
    schedule != [] &&
    var rest, a := schedule[..|schedule| - 1], schedule[|schedule| - 1];
    var before := Run(s, rest);
    if a.t == t && Enabled(before, a) && Safe(before, t) then a.Advance? && (Refuses(before, a) || Refused(s, rest, t))
    else Refused(s, rest, t)
  }

  predicate GivingUp(at: Label) {
    at.DropCount? || at.DropFlag? || at.DropCreate?
  }

  /** What a thread's last call returned. */
  function LastResult(returned: seq<Return>, t: Tid): Option<Option<Producer>> {
    if returned == [] then None
    else
      var last := returned[|returned| - 1];
      if last.t == t then Some(last.result) else LastResult(returned[..|returned| - 1], t)
  }

  /** A call that was refused memory gives up, and then has returned nothing; one that was not has
      returned a producer. */
  predicate Verdict(s: State, t: Tid, refused: bool) {
    t < |s.threads| ==>
      if s.threads[t].at.Idle? then (LastResult(s.returned, t).Some? ==> (LastResult(s.returned, t).value.None? <==> refused))
      else GivingUp(s.threads[t].at) <==> refused
  }

  lemma OneMoreResult(returned: seq<Return>, r: Return, t: Tid)
    ensures LastResult(returned + [r], t) == if r.t == t then Some(r.result) else LastResult(returned, t)
  {
    assert (returned + [r])[..|returned|] == returned;
  }

  /** A call in progress has returned nothing yet, and one that is over has once. */
  ghost predicate ReturnsOnce(s: State, s': State, t: Tid) {
    t < |s'.threads| &&
    if s'.threads[t].at.Idle? then exists result :: s'.returned == s.returned + [Return(t, result)] else s'.returned == s.returned
  }

  lemma Finishes(s: State, s': State, t: Tid, result: Option<Producer>)
    requires t < |s'.threads| && s'.threads[t].at.Idle? && s'.returned == s.returned + [Return(t, result)]
    ensures ReturnsOnce(s, s', t)
  {
  }

  lemma StepReturnsOnce(s: State, t: Tid, memory: bool)
    requires Safe(s, t) && !s.threads[t].at.Idle?
    ensures ReturnsOnce(s, AdvanceStep(s, t, memory), t)
  {
    var th, s' := s.threads[t], AdvanceStep(s, t, memory);
    var table := s.tables[th.table];
    var slot := table[Pos(s.hash[t], th.probes, |table|)];
    hide Safe, Pos, Enough, EmptyTable, ReturnsOnce;
    if th.at.Search? && slot.key == Some(t) && th.table == th.main { Finishes(s, s', t, slot.value); }
    else if th.at.PlaceValue? { Finishes(s, s', t, th.producer); }
    else if th.at.DropFlag? || th.at.DropCreate? { Finishes(s, s', t, None); }
    else { GoesOn(s, t, memory); }
  }

  lemma GoesOn(s: State, t: Tid, memory: bool)
    requires Safe(s, t) && t < |s.threads| && !s.threads[t].at.Idle? && !s.threads[t].at.PlaceValue? && !s.threads[t].at.DropFlag? && !s.threads[t].at.DropCreate?
    requires var th := s.threads[t];
             var table := s.tables[th.table];
             th.at.Search? ==> table[Pos(s.hash[t], th.probes, |table|)].key != Some(t) || th.table != th.main
    ensures ReturnsOnce(s, AdvanceStep(s, t, memory), t)
  {
    hide Safe, Pos, Enough, EmptyTable;
  }

  /** A step of u moves no other thread, and returns at most from u's call. */
  ghost predicate OnlyBy(s: State, s': State, u: Tid) {
    && |s'.threads| == |s.threads| && (forall v | 0 <= v < |s.threads| && v != u :: s'.threads[v] == s.threads[v])
    && (s'.returned == s.returned || exists result :: s'.returned == s.returned + [Return(u, result)])
  }

  predicate MovesOne(s: State, s': State, t: Tid) {
    t < |s.threads| == |s'.threads| && s'.threads == s.threads[t := s'.threads[t]]
  }

  lemma SearchMovesOne(s: State, t: Tid)
    requires Safe(s, t) && t < |s.threads|
    ensures MovesOne(s, SearchStep(s, t), t) && MovesOne(s, PlaceStep(s, t), t)
  {
    hide Safe, Pos;
  }

  lemma GrowMovesOne(s: State, t: Tid, memory: bool)
    requires Safe(s, t) && t < |s.threads|
    ensures MovesOne(s, GrowStep(s, t, memory), t) && MovesOne(s, CountStep(s, t, memory), t)
  {
    hide Safe, Enough, EmptyTable;
  }

  lemma StepOnlyBy(s: State, a: Action)
    requires Enabled(s, a) && Safe(s, a.t)
    ensures OnlyBy(s, Step(s, a), a.t)
  {
    hide Safe, SearchStep, PlaceStep, GrowStep, CountStep;
    if a.Advance? {
      SearchMovesOne(s, a.t);
      GrowMovesOne(s, a.t, a.memory);
      StepReturnsOnce(s, a.t, a.memory);
    }
  }

  lemma OtherVerdict(s: State, s': State, u: Tid, t: Tid, refused: bool)
    requires OnlyBy(s, s', u) && u != t && Verdict(s, t, refused)
    ensures Verdict(s', t, refused)
  {
    hide LastResult;
    if s'.returned != s.returned {
      var result :| s'.returned == s.returned + [Return(u, result)];
      OneMoreResult(s.returned, Return(u, result), t);
    }
  }

  /** What t holds in its hands when it is about to return. */
  lemma ResultReady(s: State, t: Tid)
    requires Inv(s) && t < |s.threads|
    ensures Safe(s, t) && Sized(s)
    ensures s.threads[t].at.PlaceValue? ==> s.threads[t].producer.Some?
    ensures s.threads[t].at.Search? ==>
              var table := s.tables[s.threads[t].table];
              var slot := table[Pos(s.hash[t], s.threads[t].probes, |table|)];
              slot.key == Some(t) ==> slot.value.Some?
  {
    ThreadSafe(s, t);
    if s.threads[t].at.Search? { SearchLands(s, t); }
    hide CountOk, TablesOk, FlagOk, ReturnedOk, CapacitiesOk, Distinct, Absent, PathTaken;
  }

  lemma SearchVerdict(s: State, t: Tid)
    requires Inv(s) && t < |s.threads| && Searching(s.threads[t].at) && Safe(s, t)
    ensures Verdict(SearchStep(s, t), t, false)
  {
    ResultReady(s, t);
    hide Inv, LastResult, Safe;
    forall r: Return ensures LastResult(s.returned + [r], t) == if r.t == t then Some(r.result) else LastResult(s.returned, t) {
      OneMoreResult(s.returned, r, t);
    }
  }

  lemma PlaceVerdict(s: State, t: Tid)
    requires Inv(s) && t < |s.threads| && Placing(s.threads[t].at) && Safe(s, t)
    ensures Verdict(PlaceStep(s, t), t, false)
  {
    ResultReady(s, t);
    hide Inv, LastResult, Safe;
    forall r: Return ensures LastResult(s.returned + [r], t) == if r.t == t then Some(r.result) else LastResult(s.returned, t) {
      OneMoreResult(s.returned, r, t);
    }
  }

  lemma GrowVerdict(s: State, t: Tid, memory: bool)
    requires t < |s.threads| && Growing(s.threads[t].at) && Safe(s, t)
    ensures Verdict(GrowStep(s, t, memory), t, Refuses(s, Advance(t, memory)))
  {
    hide Safe, LastResult, EmptyTable, Enough;
  }

  lemma CountVerdict(s: State, t: Tid, memory: bool, refused: bool)
    requires t < |s.threads| && Safe(s, t) && Verdict(s, t, refused)
    requires var at := s.threads[t].at; !at.Idle? && !Searching(at) && !Growing(at) && !Placing(at)
    ensures Verdict(CountStep(s, t, memory), t, refused || Refuses(s, Advance(t, memory)))
  {
    hide Safe, LastResult;
    forall r: Return ensures LastResult(s.returned + [r], t) == if r.t == t then Some(r.result) else LastResult(s.returned, t) {
      OneMoreResult(s.returned, r, t);
    }
  }

  lemma OwnVerdict(s: State, a: Action, refused: bool)
    requires Inv(s) && Enabled(s, a) && Safe(s, a.t) && Verdict(s, a.t, refused)
    ensures Verdict(Step(s, a), a.t, a.Advance? && (Refuses(s, a) || refused))
  {
    hide Inv, Safe, LastResult, SearchStep, PlaceStep, GrowStep, CountStep;
    if a.Advance? {
      var at := s.threads[a.t].at;
      if Searching(at) { SearchVerdict(s, a.t); }
      else if Growing(at) { GrowVerdict(s, a.t, a.memory); }
      else if Placing(at) { PlaceVerdict(s, a.t); }
      else { CountVerdict(s, a.t, a.memory, refused); }
    }
  }

  lemma {:induction false} RunVerdict(s: State, schedule: seq<Action>, t: Tid)
    requires Inv(s) && Verdict(s, t, false)
    ensures Verdict(Run(s, schedule), t, Refused(s, schedule, t))
  {
    if schedule != [] {
      hide Inv, Step, Verdict, Refuses, Safe, Enabled;
      var rest, a := schedule[..|schedule| - 1], schedule[|schedule| - 1];
      RunVerdict(s, rest, t);
      RunKeepsInv(s, rest);
      var before := Run(s, rest);
      if Enabled(before, a) && Safe(before, a.t) {
        if a.t == t {
          OwnVerdict(before, a, Refused(s, rest, t));
        } else {
          StepOnlyBy(before, a);
          OtherVerdict(before, Step(before, a), a.t, t, Refused(s, rest, t));
        }
      }
    }
  }

  /** In every run: a thread between its calls was returned nothing by the last one exactly if one of
      that call's own requests for memory was refused. */
  lemma NothingExactlyIfRefused(s0: State, schedule: seq<Action>, t: Tid)
    requires Init(s0) && t < |Run(s0, schedule).threads| && Run(s0, schedule).threads[t].at.Idle?
    requires LastResult(Run(s0, schedule).returned, t).Some?
    ensures LastResult(Run(s0, schedule).returned, t).value.None? <==> Refused(s0, schedule, t)
  {
    InitHasInv(s0);
    hide Inv, Refused, Run;
    RunVerdict(s0, schedule, t);
  }

  // ----- a call that nobody disturbs

  /** The number of slots of the first n tables. */
  function Slots(tables: seq<Table>, n: nat): nat
    requires n <= |tables|
  {
    if n == 0 then 0 else Slots(tables, n - 1) + |tables[n - 1]|
  }

  function Newest(s: State): nat {
    if s.tables == [] then 0 else |s.tables[|s.tables| - 1]|
  }

  /** The capacity that the newest table has in the end, if a thread with this count extends it. */
  function Needed(s: State, newCount: nat): nat {
    if Newest(s) == 0 then 0 else 2 * Enough(Newest(s), newCount)
  }

  /** How many steps t's call still takes, at most. */
  function StepsLeft(s: State, t: Tid): int
    requires Safe(s, t)
  {
    var th := s.threads[t];
    var placing := 2 * |s.tables[th.main]| + 1;
    var adding := 2 * Needed(s, s.count + 1) + 8;
    var growing := 2 * Needed(s, th.newCount) + 7;
    var deciding := if th.newCount < ThreeQuarters(|s.tables[th.main]|) then placing + 2 else growing + 2;
    match th.at
    case Idle => 0
    case LoadMain => Slots(s.tables, |s.tables|) + |s.tables| + adding + 1
    case Search => Slots(s.tables, th.table + 1) - th.probes + th.table + 1 + adding
    case AddCount => adding
    case TestFull => growing
    case Reload => growing - 1
    case Allocate => growing - 2
    case ClearFlag => deciding + 1
    case Decide => deciding
    case LoadAgain => growing + 1
    case DropCount => 2
    case DropFlag => 1
    case Create => placing + 1
    case DropCreate => 1
    case Place => placing - 2 * th.probes
    case PlaceKey => placing - 2 * th.probes - 1
    case PlaceValue => 1
  }

  /** Nobody else holds the resize flag. */
  predicate FlagFree(s: State, t: Tid) {
    s.holder.None? || s.holder == Some(t)
  }

  /** What the steps of t count on. */
  predicate Bounded(s: State, t: Tid) {
    Safe(s, t) &&
    var th := s.threads[t];
    && 4 <= |s.tables[th.main]| <= Newest(s)
    && (th.at.Search? ==> th.probes < |s.tables[th.table]| && th.table <= th.main)
    && (th.at.Place? || th.at.PlaceKey? ==> th.probes < |s.tables[th.main]|)
    && (th.at.Allocate? ==> th.main == |s.tables| - 1)
    && (th.at.TestFull? ==> !s.resizing)
  }

  lemma AloneBounded(s: State, t: Tid)
    requires Inv(s) && t < |s.threads| && FlagFree(s, t)
    ensures Bounded(s, t)
  {
    hide TablesOk, CountOk, Distinct, PathTaken, Absent, KeyOk, Taken;
    ThreadSafe(s, t);
    var th := s.threads[t];
    if th.at.Search? {
      TableHasRoom(s, th.table);
      PathEnds(s.tables[th.table], s.hash[t], th.probes);
    }
    if th.at.Place? || th.at.PlaceKey? {
      TableHasRoom(s, th.main);
      PathEnds(s.tables[th.main], s.hash[t], th.probes);
    }
  }

  lemma SearchTaken(s: State, t: Tid)
    requires Bounded(s, t) && Searching(s.threads[t].at) && Safe(SearchStep(s, t), t)
    ensures StepsLeft(SearchStep(s, t), t) < StepsLeft(s, t)
  {
    hide SearchStep, StepsLeft;
    if s.threads[t].at.LoadMain? { LoadTaken(s, t); } else { ProbeTaken(s, t); }
  }

  lemma LoadTaken(s: State, t: Tid)
    requires Bounded(s, t) && s.threads[t].at.LoadMain? && Safe(SearchStep(s, t), t)
    ensures StepsLeft(SearchStep(s, t), t) < StepsLeft(s, t)
  {
    hide Enough, Slots, ThreeQuarters, Pos;
  }

  lemma ProbeTaken(s: State, t: Tid)
    requires Bounded(s, t) && s.threads[t].at.Search? && Safe(SearchStep(s, t), t)
    ensures StepsLeft(SearchStep(s, t), t) < StepsLeft(s, t)
  {
    var th := s.threads[t];
    assert t < |s.threads| && th.table < |s.tables| && |s.tables[th.table]| > th.probes;
    hide Enough, Slots, ThreeQuarters, Pos, Safe;
    SlotsAdd(s.tables, th.table);
    if th.table > 0 { SlotsAdd(s.tables, th.table - 1); }
    EnoughIsMore(s);
  }

  lemma SlotsAdd(tables: seq<Table>, n: nat)
    requires n < |tables|
    ensures Slots(tables, n + 1) == Slots(tables, n) + |tables[n]|
  {
  }

  lemma EnoughIsMore(s: State)
    ensures Needed(s, s.count + 1) >= Newest(s)
  {
  }

  lemma GrowTaken(s: State, t: Tid, memory: bool)
    requires Bounded(s, t) && Growing(s.threads[t].at) && Safe(GrowStep(s, t, memory), t)
    ensures StepsLeft(GrowStep(s, t, memory), t) < StepsLeft(s, t)
  {
    hide GrowStep, StepsLeft;
    if s.threads[t].at.Allocate? { AllocateTaken(s, t, memory); } else { DecideTaken(s, t, memory); }
  }

  lemma AllocateTaken(s: State, t: Tid, memory: bool)
    requires Bounded(s, t) && s.threads[t].at.Allocate? && Safe(GrowStep(s, t, memory), t)
    ensures StepsLeft(GrowStep(s, t, memory), t) < StepsLeft(s, t)
  {
    hide EmptyTable, Enough, Slots;
    TableSize(Needed(s, s.threads[t].newCount));
  }

  lemma TableSize(capacity: nat)
    ensures |EmptyTable(capacity)| == capacity
  {
  }

  lemma DecideTaken(s: State, t: Tid, memory: bool)
    requires Bounded(s, t) && Growing(s.threads[t].at) && !s.threads[t].at.Allocate? && Safe(GrowStep(s, t, memory), t)
    ensures StepsLeft(GrowStep(s, t, memory), t) < StepsLeft(s, t)
  {
    hide Slots, EmptyTable;
    var th := s.threads[t];
    assert th.main < |s.tables| && s.tables != [] && |s.tables[th.main]| <= Newest(s) <= Needed(s, th.newCount);
    HalfFits(|s.tables[|s.tables| - 1]|);
    HalfFits(|s.tables[th.main]|);
    hide Enough, ThreeQuarters, Safe;
  }

  lemma HalfFits(capacity: nat)
    ensures capacity >= 4 ==> capacity / 2 < ThreeQuarters(capacity)
  {
  }

  lemma PlaceTaken(s: State, t: Tid)
    requires Bounded(s, t) && Placing(s.threads[t].at) && Safe(PlaceStep(s, t), t)
    ensures StepsLeft(PlaceStep(s, t), t) < StepsLeft(s, t)
  {
    hide Enough;
  }

  lemma CountTaken(s: State, t: Tid, memory: bool)
    requires Bounded(s, t) && Safe(CountStep(s, t, memory), t)
    requires var at := s.threads[t].at; !at.Idle? && !Searching(at) && !Growing(at) && !Placing(at)
    ensures StepsLeft(CountStep(s, t, memory), t) < StepsLeft(s, t)
  {
    hide Enough;
  }

  /** Only steps of t. */
  predicate Solo(schedule: seq<Action>, t: Tid) {
    forall i | 0 <= i < |schedule| :: schedule[i].Advance? && schedule[i].t == t
  }

  lemma HolderStays(s: State, t: Tid, memory: bool)
    requires Safe(s, t) && FlagFree(s, t)
    ensures FlagFree(AdvanceStep(s, t, memory), t)
  {
    hide Safe, Pos, Enough, EmptyTable;
  }

  lemma AloneStep(s: State, t: Tid, memory: bool)
    requires Inv(s) && t < |s.threads| && FlagFree(s, t) && !s.threads[t].at.Idle?
    ensures Safe(s, t)
    ensures var s' := AdvanceStep(s, t, memory);
            && Inv(s') && FlagFree(s', t) && Safe(s', t) && StepsLeft(s', t) < StepsLeft(s, t) && OnlyBy(s, s', t)
  {
    hide Inv, Safe, StepsLeft, Bounded, FlagFree, SearchStep, PlaceStep, GrowStep, CountStep;
    StepKeepsInv(s, Advance(t, memory));
    StepOnlyBy(s, Advance(t, memory));
    KnownSafe(AdvanceStep(s, t, memory), t);
    AloneBounded(s, t);
    HolderStays(s, t, memory);
    var at := s.threads[t].at;
    if Searching(at) { SearchTaken(s, t); }
    else if Growing(at) { GrowTaken(s, t, memory); }
    else if Placing(at) { PlaceTaken(s, t); }
    else { CountTaken(s, t, memory); }
  }

  lemma KnownSafe(s: State, t: Tid)
    requires Inv(s)
    ensures t < |s.threads| ==> Safe(s, t)
  {
    if t < |s.threads| { ThreadSafe(s, t); }
  }

  lemma LeftIsPositive(s: State, t: Tid)
    requires Bounded(s, t)
    ensures s.threads[t].at.Idle? || StepsLeft(s, t) > 0
  {
    hide Enough;
    SlotsAdd(s.tables, s.threads[t].table);
  }

  /** The steps that a call by t takes when its memory is granted or refused as it may. */
  lemma {:induction false} AloneRuns(s: State, schedule: seq<Action>, t: Tid)
    requires Inv(s) && t < |s.threads| && FlagFree(s, t) && Solo(schedule, t) && !s.threads[t].at.Idle?
    ensures var s' := Run(s, schedule);
            && Inv(s') && t < |s'.threads| == |s.threads| && FlagFree(s', t) && Safe(s, t) && Safe(s', t)
            && ReturnsOnce(s, s', t)
            && (s'.threads[t].at.Idle? || StepsLeft(s', t) + |schedule| <= StepsLeft(s, t))
            && (forall u | 0 <= u < |s.threads| && u != t :: s'.threads[u] == s.threads[u])
  {
    hide Inv, Safe, StepsLeft, FlagFree, Step;
    KnownSafe(s, t);
    if schedule != [] {
      var rest, a := schedule[..|schedule| - 1], schedule[|schedule| - 1];
      AloneRuns(s, rest, t);
      var before := Run(s, rest);
      if Enabled(before, a) {
        AloneStep(before, t, a.memory);
        StepReturnsOnce(before, t, a.memory);
        assert Step(before, a) == AdvanceStep(before, t, a.memory) by { StepIsAdvance(before, a); }
      }
    }
  }

  lemma StepIsAdvance(s: State, a: Action)
    requires Enabled(s, a) && Safe(s, a.t) && a.Advance?
    ensures Step(s, a) == AdvanceStep(s, a.t, a.memory)
  {
    hide AdvanceStep;
  }

  /** How many steps a call takes that begins here, at most: it looks at each slot once, and extends
      the newest table once. */
  function StepsOfCall(s: State): nat {
    Slots(s.tables, |s.tables|) + |s.tables| + 2 * Needed(s, s.count + 1) + 9
  }

  lemma CallBegins(s: State, t: Tid)
    requires Inv(s) && Enabled(s, Call(t)) && !s.resizing
    ensures Safe(s, t)
    ensures var s' := Step(s, Call(t));
            && Inv(s') && FlagFree(s', t) && Safe(s', t) && StepsLeft(s', t) == StepsOfCall(s) && Verdict(s', t, false)
            && s'.returned == s.returned && s'.threads[t].at.LoadMain? && Bounded(s', t)
  {
    StepKeepsInv(s, Call(t));
    KnownSafe(s, t);
    KnownSafe(Step(s, Call(t)), t);
    AloneBounded(Step(s, Call(t)), t);
    hide TablesOk, CountOk, ReturnedOk, CapacitiesOk, ThreadOk, Safe, Bounded;
  }

  lemma FlagDropped(s: State, t: Tid)
    requires Inv(s) && FlagFree(s, t) && t < |s.threads| && s.threads[t].at.Idle?
    ensures !s.resizing
  {
    hide TablesOk, CountOk, ReturnedOk, CapacitiesOk;
  }

  /** A call during which nobody else moves, when the resize flag is free: it ends after at most so many
      steps, has returned once, and nothing exactly if it was refused memory, and has left the flag free. */
  lemma CallEnds(s: State, t: Tid, schedule: seq<Action>)
    requires Inv(s) && Enabled(s, Call(t)) && !s.resizing && Solo(schedule, t) && |schedule| >= StepsOfCall(s)
    ensures Safe(s, t)
    ensures var s1 := Step(s, Call(t));
            var s' := Run(s1, schedule);
            && Inv(s') && !s'.resizing && t < |s'.threads| == |s.threads| && s'.threads[t].at.Idle?
            && (forall u | 0 <= u < |s.threads| && u != t :: s'.threads[u] == s.threads[u])
            && exists result :: s'.returned == s.returned + [Return(t, result)] && (result.None? <==> Refused(s1, schedule, t))
  {
    hide Inv, StepsLeft, StepsOfCall, Safe, Bounded, FlagFree, Refused, Run, Verdict;
    CallBegins(s, t);
    StepOnlyBy(s, Call(t));
    var s1 := Step(s, Call(t));
    var s' := Run(s1, schedule);
    AloneRuns(s1, schedule, t);
    RunVerdict(s1, schedule, t);
    assert FlagFree(s', t);
    AloneBounded(s', t);
    LeftIsPositive(s', t);
    FlagDropped(s', t);
    var result :| s'.returned == s.returned + [Return(t, result)];
    VerdictOf(s', s.returned, t, result, Refused(s1, schedule, t));
  }

  lemma VerdictOf(s: State, returned: seq<Return>, t: Tid, result: Option<Producer>, refused: bool)
    requires t < |s.threads| && s.threads[t].at.Idle? && Verdict(s, t, refused) && s.returned == returned + [Return(t, result)]
    ensures result.None? <==> refused
  {
    OneMoreResult(returned, Return(t, result), t);
  }
}
