/** The per-order lock table: a map of reference-counted mutexes guarded by one
    table-wide mutex, with lazy deletion of entries nobody counts any more.

    Threads interleave at the granularity of single lock, map and counter
    operations. A state is a value, one thread's next operation is the function
    `Advance`, and a run is any sequence of such operations by any threads. */
module OrderLock {
  import opened Common

  type ThreadId = nat

  /** The identity of one allocated reference-counted mutex. */
  type Cell = nat

  datatype Owner = Free | HeldBy(thread: ThreadId)

  /** What a thread does next. The first block is the body of LockOrder, the
      second the body of UnlockOrder. */
  datatype Phase =
    | Waiting      // take the table mutex
    | Looking      // load the entry
    | Missing      // allocate a cell and store it
    | Counting     // increment the counter
    | Leaving      // release the table mutex
    | Blocking     // lock the cell's mutex
    | Critical     // between LockOrder and UnlockOrder; then load the entry
    | Unlocking    // unlock the loaded cell's mutex
    | Returning    // take the table mutex
    | Discounting  // decrement the counter
    | Sweeping     // delete the entry if the counter is zero
    | Finishing    // release the table mutex
    | Done
    | Lost         // UnlockOrder found no entry and gave up

  datatype Thread = Thread(key: string, phase: Phase, cell: Cell)

  datatype State = State(
    tableOwner: Owner,
    table: map<string, Cell>,
    refs: map<Cell, int>,
    mutex: map<Cell, Owner>,
    threads: map<ThreadId, Thread>)

  const Empty := State(Free, map[], map[], map[], map[])

  predicate HoldsTable(p: Phase) {
    p.Looking? || p.Missing? || p.Counting? || p.Leaving? || p.Discounting? || p.Sweeping? || p.Finishing?
  }

  predicate HoldsCell(p: Phase) {
    p.Critical? || p.Unlocking?
  }

  /** Incremented the counter and not yet decremented it. */
  predicate Counted(p: Phase) {
    p.Leaving? || p.Blocking? || p.Critical? || p.Unlocking? || p.Returning? || p.Discounting?
  }

  predicate Linked(p: Phase) {
    Counted(p) || p.Counting? || p.Sweeping?
  }

  /** What one operation writes: the thread's own record and the shared parts. */
  datatype Effect = Effect(
    thread: Thread,
    tableOwner: Owner,
    table: map<string, Cell>,
    refs: map<Cell, int>,
    mutex: map<Cell, Owner>)

  /** The next operation of thread `t`; `None` when the thread is blocked or has
      returned. `alloc` is the cell an allocation would yield. */
  function Operation(s: State, t: ThreadId, alloc: Cell): Option<Effect>
    requires t in s.threads
    requires alloc !in s.refs
  {
    var key := s.threads[t].key;
    var cell := s.threads[t].cell;
    match s.threads[t].phase
    case Waiting =>
      if s.tableOwner.Free? then Some(Effect(Thread(key, Looking, cell), HeldBy(t), s.table, s.refs, s.mutex)) else None
    case Looking =>
      var next := if key in s.table then Thread(key, Counting, s.table[key]) else Thread(key, Missing, cell);
      Some(Effect(next, s.tableOwner, s.table, s.refs, s.mutex))
    case Missing =>
      Some(Effect(Thread(key, Counting, alloc), s.tableOwner, s.table[key := alloc], s.refs[alloc := 0], s.mutex[alloc := Free]))
    case Counting =>
      if cell in s.refs
      then Some(Effect(Thread(key, Leaving, cell), s.tableOwner, s.table, s.refs[cell := s.refs[cell] + 1], s.mutex))
      else None
    case Leaving => Some(Effect(Thread(key, Blocking, cell), Free, s.table, s.refs, s.mutex))
    case Blocking =>
      if cell in s.mutex && s.mutex[cell].Free?
      then Some(Effect(Thread(key, Critical, cell), s.tableOwner, s.table, s.refs, s.mutex[cell := HeldBy(t)]))
      else None
    case Critical =>
      var next := if key in s.table then Thread(key, Unlocking, s.table[key]) else Thread(key, Lost, cell);
      Some(Effect(next, s.tableOwner, s.table, s.refs, s.mutex))
    case Unlocking => Some(Effect(Thread(key, Returning, cell), s.tableOwner, s.table, s.refs, s.mutex[cell := Free]))
    case Returning =>
      if s.tableOwner.Free? then Some(Effect(Thread(key, Discounting, cell), HeldBy(t), s.table, s.refs, s.mutex)) else None
    case Discounting =>
      if cell in s.refs
      then Some(Effect(Thread(key, Sweeping, cell), s.tableOwner, s.table, s.refs[cell := s.refs[cell] - 1], s.mutex))
      else None
    case Sweeping =>
      var table := if cell in s.refs && s.refs[cell] == 0 then s.table - {key} else s.table;
      Some(Effect(Thread(key, Finishing, cell), s.tableOwner, table, s.refs, s.mutex))
    case Finishing => Some(Effect(Thread(key, Done, cell), Free, s.table, s.refs, s.mutex))
    case Done => None
    case Lost => None
  }

  /** The state after the next operation of thread `t`, if it can make one. */
  function Advance(s: State, t: ThreadId, alloc: Cell): Option<State>
    requires t in s.threads
    requires alloc !in s.refs
  {
    match Operation(s, t, alloc)
    case None => None
    case Some(e) => Some(State(e.tableOwner, e.table, e.refs, e.mutex, s.threads[t := e.thread]))
  }

  function Spawn(s: State, t: ThreadId, key: string): State
    requires t !in s.threads
  {
    s.(threads := s.threads[t := Thread(key, Waiting, 0)])
  }

  ghost predicate Step(s: State, s': State) {
    || (exists t, key :: t !in s.threads && s' == Spawn(s, t, key))
    || (exists t, alloc :: t in s.threads && alloc !in s.refs && Advance(s, t, alloc) == Some(s'))
  }

  ghost predicate Run(states: seq<State>) {
    && |states| > 0
    && states[0] == Empty
    && forall i :: 0 < i < |states| ==> Step(states[i - 1], states[i])
  }

  // ---------- the inductive invariant ----------

  ghost function Counters(threads: map<ThreadId, Thread>, c: Cell): set<ThreadId> {
    set t | t in threads && CountsFor(threads[t], c)
  }

  /** The cells in use are allocated, and distinct orders never share one. */
  ghost predicate WellFormed(s: State) {
    && s.refs.Keys == s.mutex.Keys
    && (forall k :: k in s.table ==> s.table[k] in s.refs)
    && (forall j, k :: j in s.table && k in s.table && s.table[j] == s.table[k] ==> j == k)
  }

  /** Each mutex is held by exactly the thread whose phase says so. */
  ghost predicate LocksAgree(s: State) {
    && (forall t :: t in s.threads ==> (HoldsTable(s.threads[t].phase) <==> s.tableOwner == HeldBy(t)))
    && (s.tableOwner.HeldBy? ==> s.tableOwner.thread in s.threads)
    && (forall t :: t in s.threads && HoldsCell(s.threads[t].phase) ==>
          s.threads[t].cell in s.mutex && s.mutex[s.threads[t].cell] == HeldBy(t))
  }

  /** No mutex is held by a thread that is not in its critical section. */
  ghost predicate NoOrphanLock(s: State) {
    forall c :: c in s.mutex && s.mutex[c].HeldBy? ==>
      && s.mutex[c].thread in s.threads
      && HoldsCell(s.threads[s.mutex[c].thread].phase)
      && s.threads[s.mutex[c].thread].cell == c
  }

  /** Every thread that uses a cell uses the one mapped for its order. */
  ghost predicate EntriesShared(s: State) {
    forall t :: t in s.threads ==>
      var th := s.threads[t];
      && (Linked(th.phase) ==> th.key in s.table && s.table[th.key] == th.cell)
      && (th.phase == Missing ==> th.key !in s.table)
      && th.phase != Lost
  }

  ghost predicate CountsExact(s: State) {
    forall c :: c in s.refs ==> s.refs[c] == |Counters(s.threads, c)|
  }

  /** An uncounted entry exists only while some thread inside the table mutex
      has just stored or just released it. */
  ghost predicate NoStaleEntry(s: State) {
    forall k :: k in s.table && s.table[k] in s.refs && s.refs[s.table[k]] == 0 ==>
      && s.tableOwner.HeldBy?
      && s.tableOwner.thread in s.threads
      && s.threads[s.tableOwner.thread].key == k
      && (s.threads[s.tableOwner.thread].phase.Counting? || s.threads[s.tableOwner.thread].phase.Sweeping?)
  }

  ghost predicate Inv(s: State) {
    WellFormed(s) && LocksAgree(s) && NoOrphanLock(s) && EntriesShared(s) && CountsExact(s) && NoStaleEntry(s)
  }

  // ---------- preservation ----------

  predicate CountsFor(th: Thread, c: Cell) {
    Counted(th.phase) && th.cell == c
  }

  lemma CountersUpdate(threads: map<ThreadId, Thread>, t: ThreadId, th: Thread, c: Cell)
    ensures var before := if t in threads && CountsFor(threads[t], c) then 1 else 0;
            |Counters(threads[t := th], c)| == |Counters(threads, c)| - before + if CountsFor(th, c) then 1 else 0
  {
    var a, b := Counters(threads, c), Counters(threads[t := th], c);
    assert t in a <==> t in threads && CountsFor(threads[t], c);
    assert t in b <==> CountsFor(th, c);
    assert a - {t} == b - {t};
    Cardinality(a, t);
    Cardinality(b, t);
  }

  lemma Cardinality(a: set<ThreadId>, t: ThreadId)
    ensures |a| == |a - {t}| + if t in a then 1 else 0
  {
    assert t in a ==> a == a - {t} + {t};
    assert t !in a ==> a == a - {t};
  }

  /** A step that neither counts nor uncounts its thread keeps every counter. */
  lemma CountsKept(s: State, t: ThreadId, th: Thread, s': State)
    requires CountsExact(s) && CountedPositive(s)
    requires s'.threads == s.threads[t := th]
    requires Counted(th.phase) <==> t in s.threads && Counted(s.threads[t].phase)
    requires Counted(th.phase) ==> th.cell == s.threads[t].cell
    requires forall c :: c in s'.refs ==> s'.refs[c] == if c in s.refs then s.refs[c] else 0
    ensures CountsExact(s')
  {
    forall c | c in s'.refs ensures s'.refs[c] == |Counters(s'.threads, c)| {
      CountersUpdate(s.threads, t, th, c);
      if c !in s.refs {
        assert Counters(s.threads, c) == {};
      }
    }
  }

  lemma CountsMoved(s: State, t: ThreadId, p: Phase, s': State)
    requires CountsExact(s) && t in s.threads && s.threads[t].cell in s.refs
    requires s'.threads == s.threads[t := s.threads[t].(phase := p)]
    requires Counted(p) != Counted(s.threads[t].phase)
    requires var c := s.threads[t].cell; s'.refs == s.refs[c := s.refs[c] + if Counted(p) then 1 else -1]
    ensures CountsExact(s')
  {
    forall c | c in s'.refs ensures s'.refs[c] == |Counters(s'.threads, c)| {
      CountersUpdate(s.threads, t, s.threads[t].(phase := p), c);
    }
  }

  /** The part of the invariant that a step keeps without recounting threads,
      together with what it needs to know about the counters. */
  ghost predicate Shape(s: State) {
    WellFormed(s) && LocksAgree(s) && EntriesShared(s) && NoStaleEntry(s)
  }

  /** A counted thread keeps its cell's counter positive. */
  ghost predicate CountedPositive(s: State) {
    forall u :: u in s.threads && Counted(s.threads[u].phase) ==>
      s.threads[u].cell in s.refs && s.refs[s.threads[u].cell] > 0
  }

  lemma CountedArePositive(s: State)
    requires Inv(s)
    ensures CountedPositive(s)
  {
    forall u | u in s.threads && Counted(s.threads[u].phase)
      ensures s.threads[u].cell in s.refs && s.refs[s.threads[u].cell] > 0
    {
      assert u in Counters(s.threads, s.threads[u].cell);
    }
  }

  lemma TakeTableStep(s: State, t: ThreadId, s': State)
    requires Shape(s) && t in s.threads && s.tableOwner.Free?
    requires s.threads[t].phase.Waiting? || s.threads[t].phase.Returning?
    requires var Thread(key, phase, cell) := s.threads[t];
             s' == State(HeldBy(t), s.table, s.refs, s.mutex,
                         s.threads[t := Thread(key, if phase.Waiting? then Looking else Discounting, cell)])
    ensures Shape(s')
  {
  }

  lemma DropTableStep(s: State, t: ThreadId, s': State)
    requires Shape(s) && CountedPositive(s) && t in s.threads
    requires s.threads[t].phase.Leaving? || s.threads[t].phase.Finishing?
    requires var Thread(key, phase, cell) := s.threads[t];
             s' == State(Free, s.table, s.refs, s.mutex,
                         s.threads[t := Thread(key, if phase.Leaving? then Blocking else Done, cell)])
    ensures Shape(s')
  {
  }

  lemma LoadStep(s: State, t: ThreadId, s': State)
    requires Shape(s) && t in s.threads
    requires s.threads[t].phase.Looking? || s.threads[t].phase.Critical?
    requires var Thread(key, phase, cell) := s.threads[t];
             s' == State(s.tableOwner, s.table, s.refs, s.mutex, s.threads[t :=
                     if key in s.table then Thread(key, if phase.Looking? then Counting else Unlocking, s.table[key])
                     else Thread(key, if phase.Looking? then Missing else Lost, cell)])
    ensures Shape(s')
  {
  }

  lemma StoreStep(s: State, t: ThreadId, alloc: Cell, s': State)
    requires Shape(s) && t in s.threads && s.threads[t].phase.Missing? && alloc !in s.refs
    requires var key := s.threads[t].key;
             s' == State(s.tableOwner, s.table[key := alloc], s.refs[alloc := 0], s.mutex[alloc := Free],
                         s.threads[t := Thread(key, Counting, alloc)])
    ensures Shape(s')
  {
  }

  lemma CounterStep(s: State, t: ThreadId, s': State)
    requires Shape(s) && CountedPositive(s) && t in s.threads && s.threads[t].cell in s.refs
    requires s.threads[t].phase.Counting? || s.threads[t].phase.Discounting?
    requires s.refs[s.threads[t].cell] >= 0
    requires var Thread(key, phase, cell) := s.threads[t];
             s' == State(s.tableOwner, s.table, s.refs[cell := s.refs[cell] + if phase.Counting? then 1 else -1],
                         s.mutex, s.threads[t := Thread(key, if phase.Counting? then Leaving else Sweeping, cell)])
    ensures Shape(s')
  {
  }

  lemma CellMutexStep(s: State, t: ThreadId, s': State)
    requires Shape(s) && t in s.threads && s.threads[t].cell in s.mutex
    requires s.threads[t].phase.Unlocking? || (s.threads[t].phase.Blocking? && s.mutex[s.threads[t].cell].Free?)
    requires var Thread(key, phase, cell) := s.threads[t];
             s' == State(s.tableOwner, s.table, s.refs, s.mutex[cell := if phase.Blocking? then HeldBy(t) else Free],
                         s.threads[t := Thread(key, if phase.Blocking? then Critical else Returning, cell)])
    ensures Shape(s')
  {
  }

  lemma SweepStep(s: State, t: ThreadId, s': State)
    requires Shape(s) && CountedPositive(s) && t in s.threads && s.threads[t].phase.Sweeping?
    requires var Thread(key, phase, cell) := s.threads[t];
             s' == State(s.tableOwner, if cell in s.refs && s.refs[cell] == 0 then s.table - {key} else s.table,
                         s.refs, s.mutex, s.threads[t := Thread(key, Finishing, cell)])
    ensures Shape(s')
  {
  }

  /** A step changes the phase and the cell of its own thread and nothing else
      about threads. */
  lemma AdvanceKeepsOthers(s: State, t: ThreadId, alloc: Cell, s': State)
    requires t in s.threads && alloc !in s.refs && Advance(s, t, alloc) == Some(s')
    ensures s'.threads.Keys == s.threads.Keys && s'.threads[t].key == s.threads[t].key
    ensures forall u :: u in s.threads && u != t ==> s'.threads[u] == s.threads[u]
  {
  }

  lemma UncountedStep(s: State, t: ThreadId, alloc: Cell, s': State)
    requires t in s.threads && alloc !in s.refs && Advance(s, t, alloc) == Some(s')
    requires var th := s.threads[t];
             && !th.phase.Counting? && !th.phase.Discounting?
             && (th.phase.Critical? ==> th.key in s.table && s.table[th.key] == th.cell)
    ensures t in s'.threads && (Counted(s'.threads[t].phase) <==> Counted(s.threads[t].phase))
    ensures Counted(s.threads[t].phase) ==> s'.threads[t].cell == s.threads[t].cell
    ensures forall c :: c in s'.refs ==> s'.refs[c] == if c in s.refs then s.refs[c] else 0
  {
  }

  lemma CountsPreserved(s: State, t: ThreadId, alloc: Cell, s': State)
    requires CountsExact(s) && CountedPositive(s) && t in s.threads && alloc !in s.refs
    requires Advance(s, t, alloc) == Some(s')
    requires var th := s.threads[t]; th.phase.Critical? ==> th.key in s.table && s.table[th.key] == th.cell
    ensures CountsExact(s')
  {
    var phase := s.threads[t].phase;
    if phase.Counting? || phase.Discounting? {
      CountsMoved(s, t, if phase.Counting? then Leaving else Sweeping, s');
    } else {
      UncountedStep(s, t, alloc, s');
      AdvanceKeepsOthers(s, t, alloc, s');
      assert s'.threads == s.threads[t := s'.threads[t]];
      CountsKept(s, t, s'.threads[t], s');
    }
  }

  /** A step keeps a cell's mutex, frees it, or takes it for its own thread; a
      thread that had one keeps its phase's claim or frees it. */
  ghost predicate MutexStep(s: State, t: ThreadId, s': State)
    requires t in s.threads && t in s'.threads
  {
    && (forall c :: c in s'.mutex ==>
          || s'.mutex[c].Free?
          || (c in s.mutex && s'.mutex[c] == s.mutex[c])
          || (s'.mutex[c] == HeldBy(t) && HoldsCell(s'.threads[t].phase) && s'.threads[t].cell == c))
    && (HoldsCell(s.threads[t].phase) ==>
          var c := s.threads[t].cell;
          || (HoldsCell(s'.threads[t].phase) && s'.threads[t].cell == c)
          || (c in s'.mutex && s'.mutex[c].Free?))
  }

  lemma StepsAreMutexSteps(s: State, t: ThreadId, alloc: Cell, s': State)
    requires t in s.threads && alloc !in s.refs && Advance(s, t, alloc) == Some(s')
    requires var th := s.threads[t]; th.phase.Critical? ==> th.key in s.table && s.table[th.key] == th.cell
    ensures t in s'.threads && MutexStep(s, t, s')
  {
  }

  lemma OwnersKept(s: State, t: ThreadId, s': State)
    requires NoOrphanLock(s) && t in s.threads && t in s'.threads && MutexStep(s, t, s')
    requires forall u :: u in s.threads && u != t ==> u in s'.threads && s'.threads[u] == s.threads[u]
    ensures NoOrphanLock(s')
  {
  }

  lemma OwnersPreserved(s: State, t: ThreadId, alloc: Cell, s': State)
    requires NoOrphanLock(s) && t in s.threads && alloc !in s.refs && Advance(s, t, alloc) == Some(s')
    requires var th := s.threads[t]; th.phase.Critical? ==> th.key in s.table && s.table[th.key] == th.cell
    ensures NoOrphanLock(s')
  {
    StepsAreMutexSteps(s, t, alloc, s');
    AdvanceKeepsOthers(s, t, alloc, s');
    OwnersKept(s, t, s');
  }

  lemma SpawnShape(s: State, t: ThreadId, key: string)
    requires Shape(s) && t !in s.threads
    ensures Shape(Spawn(s, t, key))
  {
  }

  lemma SpawnPreserves(s: State, t: ThreadId, key: string)
    requires Inv(s) && t !in s.threads
    ensures Inv(Spawn(s, t, key))
  {
    CountedArePositive(s);
    SpawnShape(s, t, key);
    CountsKept(s, t, Thread(key, Waiting, 0), Spawn(s, t, key));
  }

  lemma StepPreserves(s: State, s': State)
    requires Inv(s) && Step(s, s')
    ensures Inv(s')
  {
    if t, key :| t !in s.threads && s' == Spawn(s, t, key) {
      SpawnPreserves(s, t, key);
    } else {
      var t, alloc :| t in s.threads && alloc !in s.refs && Advance(s, t, alloc) == Some(s');
      AdvancePreserves(s, t, alloc, s');
    }
  }

  lemma ShapePreserved(s: State, t: ThreadId, alloc: Cell, s': State)
    requires Shape(s) && CountedPositive(s) && t in s.threads && alloc !in s.refs
    requires Advance(s, t, alloc) == Some(s')
    requires forall c :: c in s.refs ==> s.refs[c] >= 0
    ensures Shape(s')
  {
    match s.threads[t].phase
    case Waiting | Returning => TakeTableStep(s, t, s');
    case Leaving | Finishing => DropTableStep(s, t, s');
    case Looking | Critical => LoadStep(s, t, s');
    case Missing => StoreStep(s, t, alloc, s');
    case Counting | Discounting => CounterStep(s, t, s');
    case Blocking | Unlocking => CellMutexStep(s, t, s');
    case Sweeping => SweepStep(s, t, s');
    case _ =>
  }

  lemma AdvancePreserves(s: State, t: ThreadId, alloc: Cell, s': State)
    requires Inv(s) && t in s.threads && alloc !in s.refs && Advance(s, t, alloc) == Some(s')
    ensures Inv(s')
  {
    CountedArePositive(s);
    assert forall c :: c in s.refs ==> s.refs[c] == |Counters(s.threads, c)|;
    CountsPreserved(s, t, alloc, s');
    OwnersPreserved(s, t, alloc, s');
    ShapePreserved(s, t, alloc, s');
  }

  lemma {:induction false} RunsAreInvariant(states: seq<State>, i: nat)
    requires Run(states) && i < |states|
    ensures Inv(states[i])
  {
    if i > 0 {
      RunsAreInvariant(states, i - 1);
      StepPreserves(states[i - 1], states[i]);
    }
  }

  // ---------- what the lock promises ----------

  /** At most one thread is between LockOrder(k) and UnlockOrder(k). */
  lemma MutualExclusion(s: State, t: ThreadId, u: ThreadId)
    requires Inv(s) && t in s.threads && u in s.threads
    requires HoldsCell(s.threads[t].phase) && HoldsCell(s.threads[u].phase)
    requires s.threads[t].key == s.threads[u].key
    ensures t == u
  {
    assert s.mutex[s.threads[t].cell] == HeldBy(t);
    assert s.mutex[s.threads[u].cell] == HeldBy(u);
  }

  /** The threads of order `key` that incremented and have not decremented. */
  ghost function CountedFor(s: State, key: string): set<ThreadId> {
    set t | t in s.threads && s.threads[t].key == key && Counted(s.threads[t].phase)
  }

  /** In every state of every run: exclusion per order, the mapped counter is the
      number of threads of that order between increment and decrement, and all of
      them use the mapped cell, so that a thread leaving its critical section finds
      the very cell it locked. */
  lemma LockIsSafeInEveryRun(states: seq<State>, i: nat)
    requires Run(states) && i < |states|
    ensures var s := states[i];
            && (forall t, u | t in s.threads && u in s.threads && s.threads[t].key == s.threads[u].key ::
                  HoldsCell(s.threads[t].phase) && HoldsCell(s.threads[u].phase) ==> t == u)
            && (forall k | k in s.table ::
                  s.table[k] in s.refs && s.refs[s.table[k]] == |CountedFor(s, k)|)
            && (forall t :: t in s.threads && Counted(s.threads[t].phase) ==>
                  s.threads[t].key in s.table && s.table[s.threads[t].key] == s.threads[t].cell)
            && (forall t :: t in s.threads ==> s.threads[t].phase != Lost)
  {
    var s := states[i];
    RunsAreInvariant(states, i);
    forall t, u | t in s.threads && u in s.threads && s.threads[t].key == s.threads[u].key
        && HoldsCell(s.threads[t].phase) && HoldsCell(s.threads[u].phase)
      ensures t == u
    {
      MutualExclusion(s, t, u);
    }
    forall k | k in s.table
      ensures s.refs[s.table[k]] == |CountedFor(s, k)|
    {
      assert Counters(s.threads, s.table[k]) == CountedFor(s, k);
    }
  }

  /** When every thread has returned, no entry is left behind. */
  lemma TableDrains(states: seq<State>, i: nat)
    requires Run(states) && i < |states|
    requires forall t :: t in states[i].threads ==> states[i].threads[t].phase == Done
    ensures states[i].table == map[]
  {
    var s := states[i];
    RunsAreInvariant(states, i);
    forall c ensures Counters(s.threads, c) == {} {}
    assert forall k :: k !in s.table;
  }

  /** A thread that holds a mutex, or wants one that is free, can move. */
  lemma Moves(s: State, t: ThreadId, alloc: Cell)
    requires Inv(s) && t in s.threads && alloc !in s.refs
    requires var Thread(_, phase, cell) := s.threads[t];
             || HoldsTable(phase) || HoldsCell(phase)
             || (phase.Blocking? && cell in s.mutex && s.mutex[cell].Free?)
             || ((phase.Waiting? || phase.Returning?) && s.tableOwner.Free?)
    ensures Advance(s, t, alloc).Some?
  {
    assert s.threads[t].phase.Discounting? ==> t in Counters(s.threads, s.threads[t].cell);
  }

  /** While some thread has not returned, some thread can move. */
  lemma Mover(s: State, w: ThreadId, alloc: Cell) returns (t: ThreadId)
    requires Inv(s) && w in s.threads && s.threads[w].phase != Done && alloc !in s.refs
    ensures t in s.threads && Advance(s, t, alloc).Some?
  {
    if s.tableOwner.HeldBy? {
      t := s.tableOwner.thread;
    } else if s.threads[w].phase.Blocking? && s.mutex[s.threads[w].cell].HeldBy? {
      t := s.mutex[s.threads[w].cell].thread;
    } else {
      t := w;
    }
    Moves(s, t, alloc);
  }

  /** No run deadlocks. */
  lemma NeverDeadlocks(states: seq<State>, i: nat, w: ThreadId, alloc: Cell)
    requires Run(states) && i < |states| && alloc !in states[i].refs
    requires w in states[i].threads && states[i].threads[w].phase != Done
    ensures exists t :: t in states[i].threads && Advance(states[i], t, alloc).Some?
  {
    RunsAreInvariant(states, i);
    var t := Mover(states[i], w, alloc);
  }
}
