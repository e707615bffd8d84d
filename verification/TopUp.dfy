/** Payment crediting on top of the per-order lock: duplicate Epay callbacks,
    Stripe events and admin completions race on the same orders of one process.

    The critical section of a handler is itself several operations (read the
    row, save it, credit the user), each of which may interleave with any other
    thread and may fail. Handlers that run as one database transaction under a
    row lock take a single step. */
module TopUp {
  import opened Common
  import opened OrderLock

  datatype Status = Pending | Success | Failed | Expired

  datatype Provider = Epay | Stripe | OtherProvider(name: string)

  datatype Order = Order(provider: Provider, payMethod: string, status: Status, amount: int, money: real)

  datatype Job =
    | EpayNotify(payMethod: string)
    | StripeAsyncFailed
    | AdminComplete
    | StripeFulfil
    | StripeExpire

  /** How far a handler is in its critical section. */
  datatype Progress =
    | Start
    | Loaded(local: Order)  // decided on a new row, not yet saved
    | Saved(local: Order)   // saved the row, has yet to credit the user
    | End

  datatype Work = Work(job: Job, progress: Progress)

  /** What happened to orders and users. `leaves` counts status writes and
      `credits` counts quota grants, per trade number; `granted` is the quota. */
  datatype Ledger = Ledger(
    leaves: multiset<string>,
    credits: multiset<string>,
    granted: map<string, real>,
    epayMoved: set<string>,
    epayCredited: set<string>,
    epayLost: set<string>,
    epayTotal: int)

  datatype System = System(
    lock: State,
    work: map<ThreadId, Work>,
    orders: map<string, Order>,
    ledger: Ledger,
    perUnit: real)

  datatype Move =
    | Arrive(thread: ThreadId, key: string, job: Job)
    | LockMove(thread: ThreadId, alloc: Cell)
    | BodyMove(thread: ThreadId, ok: bool)
    | Insert(key: string, order: Order)

  /** The whole part, toward zero. */
  function Whole(x: real): int {
    if x >= 0.0 then x.Floor else -((-x).Floor)
  }

  function EpayQuota(o: Order, perUnit: real): int {
    Whole(o.amount as real * perUnit)
  }

  function AdminQuota(o: Order, perUnit: real): int {
    if o.provider.Stripe? then Whole(o.money * perUnit) else Whole(o.amount as real * perUnit)
  }

  /** The row a read-then-save handler wants to write, if it wants to write at all. */
  function Decide(job: Job, row: Order): Option<Order> {
    match job
    case EpayNotify(payMethod) =>
      if row.provider.Epay? && row.status.Pending? then Some(row.(payMethod := payMethod, status := Success)) else None
    case StripeAsyncFailed =>
      if row.provider.Stripe? && row.status.Pending? then Some(row.(status := Failed)) else None
    case _ => None
  }

  function SaveRow(s: System, key: string, row: Order): System {
    s.(orders := s.orders[key := row], ledger := s.ledger.(leaves := s.ledger.leaves + multiset{key}))
  }

  function Credit(s: System, key: string, quota: real): System {
    s.(ledger := s.ledger.(credits := s.ledger.credits + multiset{key}, granted := s.ledger.granted[key := quota]))
  }

  /** The status a one-transaction handler gives the row it has locked, if any. */
  function Verdict(job: Job, row: Order, perUnit: real): Option<Status> {
    if !row.status.Pending? then None
    else match job
      case AdminComplete => if AdminQuota(row, perUnit) > 0 then Some(Success) else None
      case StripeFulfil => if row.provider.Stripe? then Some(Success) else None
      case StripeExpire => if row.provider.Stripe? then Some(Expired) else None
      case _ => None
  }

  /** The handlers that lock the row, test it and write it in one transaction,
      crediting the user when the order succeeds. */
  function Transact(s: System, key: string, job: Job): System
    requires key in s.orders
  {
    var verdict := Verdict(job, s.orders[key], s.perUnit);
    if verdict.None? then s
    else
      var s1 := SaveRow(s, key, s.orders[key].(status := verdict.value));
      if !verdict.value.Success? then s1
      else
        var quota := if job.AdminComplete? then AdminQuota(s.orders[key], s.perUnit) as real else s.orders[key].money * s.perUnit;
        Credit(s1, key, quota)
  }

  function Goto(s: System, t: ThreadId, p: Progress): System
    requires t in s.work
  {
    s.(work := s.work[t := Work(s.work[t].job, p)])
  }

  /** One operation inside the critical section; `ok` is false when the
      database refuses a write. */
  function Body(s: System, t: ThreadId, ok: bool): (s': System)
    requires t in s.work && t in s.lock.threads
    ensures s'.lock == s.lock
  {
    var key := s.lock.threads[t].key;
    var job := s.work[t].job;
    match s.work[t].progress
    case Start =>
      if key !in s.orders then Goto(s, t, End)
      else if job.EpayNotify? || job.StripeAsyncFailed? then
        var row := Decide(job, s.orders[key]);
        Goto(s, t, if row.Some? then Loaded(row.value) else End)
      else if ok then Goto(Transact(s, key, job), t, End)
      else Goto(s, t, End)
    case Loaded(row) =>
      if !ok then Goto(s, t, End)
      else if job.EpayNotify? then
        var s1 := SaveRow(s, key, row);
        Goto(s1.(ledger := s1.ledger.(epayMoved := s1.ledger.epayMoved + {key})), t, Saved(row))
      else Goto(SaveRow(s, key, row), t, End)
    case Saved(row) =>
      if ok then
        var s1 := Credit(s, key, EpayQuota(row, s.perUnit) as real);
        Goto(s1.(ledger := s1.ledger.(epayCredited := s1.ledger.epayCredited + {key},
                                      epayTotal := s1.ledger.epayTotal + EpayQuota(row, s.perUnit))), t, End)
      else Goto(s.(ledger := s.ledger.(epayLost := s.ledger.epayLost + {key})), t, End)
    case End => s
  }

  /** The effect of a move, or `None` when it is not possible. */
  function Apply(s: System, m: Move): Option<System> {
    match m
    case Arrive(t, key, job) =>
      if t in s.lock.threads then None
      else Some(s.(lock := Spawn(s.lock, t, key), work := s.work[t := Work(job, Start)]))
    case LockMove(t, alloc) =>
      if t !in s.lock.threads || t !in s.work || alloc in s.lock.refs then None
      else if s.lock.threads[t].phase.Critical? && !s.work[t].progress.End? then None
      else
        var next := Advance(s.lock, t, alloc);
        if next.Some? then Some(s.(lock := next.value)) else None
    case BodyMove(t, ok) =>
      if t !in s.lock.threads || t !in s.work then None
      else if !s.lock.threads[t].phase.Critical? || s.work[t].progress.End? then None
      else Some(Body(s, t, ok))
    case Insert(key, order) =>
      if key in s.orders || !order.status.Pending? then None
      else Some(s.(orders := s.orders[key := order]))
  }

  function Boot(perUnit: real): System {
    System(Empty, map[], map[], Ledger(multiset{}, multiset{}, map[], {}, {}, {}, 0), perUnit)
  }

  ghost predicate Run(states: seq<System>, moves: seq<Move>) {
    && |states| == |moves| + 1
    && states[0] == Boot(states[0].perUnit)
    && forall i :: 0 <= i < |moves| ==> Apply(states[i], moves[i]) == Some(states[i + 1])
  }

  // ---------- what an order is worth ----------

  /** The quota an order is worth: its dollars, which a Stripe order keeps in its
      money and any other in its amount, times the quota per dollar. */
  function Worth(o: Order, perUnit: real): real {
    (if o.provider.Stripe? then o.money else o.amount as real) * perUnit
  }

  /** `granted` is `worth` or its whole part. */
  predicate Near(granted: real, worth: real) {
    if worth >= 0.0 then granted <= worth < granted + 1.0 else granted - 1.0 < worth <= granted
  }

  predicate RightGrant(o: Order, granted: real, perUnit: real) {
    Near(granted, Worth(o, perUnit))
  }

  lemma WholeIsNear(x: real)
    ensures Near(Whole(x) as real, x) && (Whole(x) > 0 <==> x >= 1.0) && Near(x, x)
  {
  }

  /** The quota owed for a set of orders: the whole part of what each is worth. */
  ghost function Owed(orders: map<string, Order>, keys: set<string>, perUnit: real): int {
    if keys == {} then 0
    else
      var k :| k in keys;
      (if k in orders then Whole(Worth(orders[k], perUnit)) else 0) + Owed(orders, keys - {k}, perUnit)
  }

  /** What each kind of handler grants is right for the rows it credits. */
  lemma EpayGrantIsRight(o: Order, perUnit: real)
    requires !o.provider.Stripe?
    ensures RightGrant(o, EpayQuota(o, perUnit) as real, perUnit) && EpayQuota(o, perUnit) == Whole(Worth(o, perUnit))
  {
    WholeIsNear(o.amount as real * perUnit);
  }

  lemma AdminGrantIsRight(o: Order, perUnit: real)
    ensures RightGrant(o, AdminQuota(o, perUnit) as real, perUnit)
    ensures AdminQuota(o, perUnit) > 0 <==> Worth(o, perUnit) >= 1.0
  {
    WholeIsNear(Worth(o, perUnit));
  }

  lemma StripeGrantIsRight(o: Order, perUnit: real)
    requires o.provider.Stripe?
    ensures RightGrant(o, o.money * perUnit, perUnit)
  {
    WholeIsNear(o.money * perUnit);
  }

  // ---------- the inductive invariant ----------

  /** What a handler knows about its row while it is inside the lock. */
  ghost predicate WorkAgrees(s: System, t: ThreadId)
    requires t in s.work && t in s.lock.threads
  {
    var key := s.lock.threads[t].key;
    match s.work[t].progress
    case Loaded(row) =>
      && s.lock.threads[t].phase.Critical?
      && key in s.orders && Decide(s.work[t].job, s.orders[key]) == Some(row)
    case Saved(row) =>
      && s.lock.threads[t].phase.Critical? && s.work[t].job.EpayNotify?
      && key in s.orders && s.orders[key] == row && row.status.Success? && row.provider.Epay?
      && key in s.ledger.epayMoved && key !in s.ledger.credits && key !in s.ledger.epayLost
    case _ => true
  }

  /** The ledger of one order is the one its status calls for. */
  ghost predicate OrderAgrees(s: System, k: string) {
    var l := s.ledger;
    && l.leaves[k] == (if k in s.orders && !s.orders[k].status.Pending? then 1 else 0)
    && l.credits[k] <= (if k in s.orders && s.orders[k].status.Success? then 1 else 0)
    && (k in l.credits ==> k in l.granted && k in s.orders && RightGrant(s.orders[k], l.granted[k], s.perUnit))
    && (k in l.epayMoved ==> k in s.orders && s.orders[k].status.Success?)
    && (k in l.epayCredited ==> k in l.epayMoved && k in l.credits && k !in l.epayLost)
    && (k in l.epayLost ==> k in l.epayMoved && k !in l.credits)
    && (k in l.epayMoved && k !in l.epayCredited && k !in l.epayLost ==> k !in l.credits && Crediting(s, k))
  }

  /** Some handler has moved the order to success and is about to credit it. */
  ghost predicate Crediting(s: System, k: string) {
    exists t :: t in s.work && t in s.lock.threads && s.lock.threads[t].key == k && s.work[t].progress.Saved?
  }

  ghost predicate Inv(s: System) {
    OrderLock.Inv(s.lock) && BooksAgree(s)
  }

  ghost predicate BooksAgree(s: System) {
    && s.work.Keys == s.lock.threads.Keys
    && (forall t :: t in s.work ==> WorkAgrees(s, t))
    && (forall k :: OrderAgrees(s, k))
    && s.ledger.epayTotal == Owed(s.orders, s.ledger.epayCredited, s.perUnit)
  }

  // ---------- sums ----------

  lemma {:induction false} OwedPick(orders: map<string, Order>, keys: set<string>, perUnit: real, x: string)
    requires x in keys
    ensures Owed(orders, keys, perUnit) ==
            (if x in orders then Whole(Worth(orders[x], perUnit)) else 0) + Owed(orders, keys - {x}, perUnit)
    decreases keys
  {
    var k :| k in keys && Owed(orders, keys, perUnit) ==
      (if k in orders then Whole(Worth(orders[k], perUnit)) else 0) + Owed(orders, keys - {k}, perUnit);
    if k != x {
      OwedPick(orders, keys - {k}, perUnit, x);
      OwedPick(orders, keys - {x}, perUnit, k);
      assert keys - {k} - {x} == keys - {x} - {k};
    }
  }

  /** The row still stands for the same payment. */
  predicate SamePayment(o: Order, o': Order) {
    o.provider == o'.provider && o.amount == o'.amount && o.money == o'.money
  }

  lemma SameWorth(o: Order, o': Order, perUnit: real)
    requires SamePayment(o, o')
    ensures Worth(o, perUnit) == Worth(o', perUnit)
  {
  }

  lemma {:induction false} OwedSame(orders: map<string, Order>, orders': map<string, Order>, keys: set<string>, perUnit: real)
    requires forall k :: k in keys ==> k in orders && k in orders' && SamePayment(orders[k], orders'[k])
    ensures Owed(orders, keys, perUnit) == Owed(orders', keys, perUnit)
    decreases keys
  {
    if keys != {} {
      var k :| k in keys;
      OwedPick(orders, keys, perUnit, k);
      OwedPick(orders', keys, perUnit, k);
      SameWorth(orders[k], orders'[k], perUnit);
      OwedSame(orders, orders', keys - {k}, perUnit);
    }
  }

  // ---------- preservation ----------

  lemma ArriveKeepsBooks(s: System, t: ThreadId, key: string, job: Job)
    requires BooksAgree(s) && t !in s.lock.threads
    ensures BooksAgree(Apply(s, Arrive(t, key, job)).value)
  {
    var s' := Apply(s, Arrive(t, key, job)).value;
    forall u | u in s'.work ensures WorkAgrees(s', u) {
      assert u != t ==> WorkAgrees(s, u);
    }
    CreditersKept(s, s');
  }

  lemma ArrivePreserves(s: System, t: ThreadId, key: string, job: Job)
    requires Inv(s) && t !in s.lock.threads
    ensures Inv(Apply(s, Arrive(t, key, job)).value)
  {
    var s' := Apply(s, Arrive(t, key, job)).value;
    SpawnPreserves(s.lock, t, key);
    ArriveKeepsBooks(s, t, key, job);
  }

  /** A handler about to credit an order stays so when the step leaves it alone. */
  lemma CreditersKept(s: System, s': System)
    requires BooksAgree(s) && s'.ledger == s.ledger && s'.perUnit == s.perUnit
    requires forall u :: u in s.work && s.work[u].progress.Saved? ==>
               u in s'.work && s'.work[u] == s.work[u] && u in s'.lock.threads && s'.lock.threads[u].key == s.lock.threads[u].key
    requires forall k :: k in s.orders ==> k in s'.orders && s'.orders[k] == s.orders[k]
    requires forall k :: k in s'.orders && k !in s.orders ==> s'.orders[k].status.Pending?
    ensures forall k :: OrderAgrees(s', k)
  {
    forall k ensures OrderAgrees(s', k) {
      assert OrderAgrees(s, k);
      if Crediting(s, k) {
        var t :| t in s.work && t in s.lock.threads && s.lock.threads[t].key == k && s.work[t].progress.Saved?;
        assert t in s'.work && s'.work[t].progress.Saved?;
      }
    }
  }

  lemma LockMovePreserves(s: System, t: ThreadId, alloc: Cell)
    requires Inv(s) && Apply(s, LockMove(t, alloc)).Some?
    ensures Inv(Apply(s, LockMove(t, alloc)).value)
  {
    var s' := Apply(s, LockMove(t, alloc)).value;
    AdvancePreserves(s.lock, t, alloc, s'.lock);
    AdvanceKeepsOthers(s.lock, t, alloc, s'.lock);
    forall u | u in s'.work ensures WorkAgrees(s', u) {
      assert WorkAgrees(s, u);
    }
    CreditersKept(s, s');
  }

  lemma InsertPreserves(s: System, key: string, order: Order)
    requires Inv(s) && Apply(s, Insert(key, order)).Some?
    ensures Inv(Apply(s, Insert(key, order)).value)
  {
    var s' := Apply(s, Insert(key, order)).value;
    forall u | u in s'.work ensures WorkAgrees(s', u) {
      assert WorkAgrees(s, u);
      assert OrderAgrees(s, key);
    }
    CreditersKept(s, s');
    assert forall k :: k in s.ledger.epayCredited ==> OrderAgrees(s, k);
    OwedSame(s.orders, s'.orders, s.ledger.epayCredited, s.perUnit);
  }

  /** No other handler has unfinished business with the order of `t`. */
  ghost predicate AloneOnOrder(s: System, t: ThreadId)
    requires s.work.Keys == s.lock.threads.Keys && t in s.work
  {
    forall u :: u in s.work && u != t && s.lock.threads[u].key == s.lock.threads[t].key ==>
      !s.work[u].progress.Loaded? && !s.work[u].progress.Saved?
  }

  /** Inside the lock a handler is the only one working on its order. */
  lemma CriticalIsAlone(s: System, t: ThreadId)
    requires Inv(s) && t in s.work && s.lock.threads[t].phase.Critical?
    ensures AloneOnOrder(s, t)
  {
    forall u | u in s.work && u != t && s.lock.threads[u].key == s.lock.threads[t].key
      ensures !s.work[u].progress.Loaded? && !s.work[u].progress.Saved?
    {
      assert WorkAgrees(s, u);
      if s.lock.threads[u].phase.Critical? {
        MutualExclusion(s.lock, t, u);
      }
    }
  }

  /** Writing only the books of one order leaves those of the others alone. */
  ghost predicate OthersKept(s: System, s': System, key: string) {
    forall k :: k != key ==>
      && (k in s'.orders <==> k in s.orders)
      && (k in s.orders ==> s'.orders[k] == s.orders[k])
      && s'.ledger.leaves[k] == s.ledger.leaves[k] && s'.ledger.credits[k] == s.ledger.credits[k]
      && (k in s'.ledger.granted <==> k in s.ledger.granted)
      && (k in s.ledger.granted ==> s'.ledger.granted[k] == s.ledger.granted[k])
      && (k in s'.ledger.epayMoved <==> k in s.ledger.epayMoved)
      && (k in s'.ledger.epayCredited <==> k in s.ledger.epayCredited)
      && (k in s'.ledger.epayLost <==> k in s.ledger.epayLost)
  }

  lemma LocalStep(s: System, t: ThreadId, p: Progress, s': System)
    requires BooksAgree(s) && t in s.work && AloneOnOrder(s, t)
    requires s'.lock == s.lock && s'.perUnit == s.perUnit && s'.work == s.work[t := Work(s.work[t].job, p)]
    requires OthersKept(s, s', s.lock.threads[t].key)
    requires WorkAgrees(s', t) && OrderAgrees(s', s.lock.threads[t].key)
    requires s'.ledger.epayTotal == Owed(s'.orders, s'.ledger.epayCredited, s'.perUnit)
    ensures BooksAgree(s')
  {
    var key := s.lock.threads[t].key;
    forall u | u in s'.work && u != t ensures WorkAgrees(s', u) {
      assert WorkAgrees(s, u);
    }
    forall k | k != key ensures OrderAgrees(s', k) {
      assert OrderAgrees(s, k);
      if Crediting(s, k) {
        var u :| u in s.work && u in s.lock.threads && s.lock.threads[u].key == k && s.work[u].progress.Saved?;
        assert u in s'.work && s'.work[u].progress.Saved?;
      }
    }
  }

  /** Rewriting a row but not its payment changes no debt. */
  lemma OwedAfterWrite(s: System, s': System, key: string)
    requires BooksAgree(s) && OthersKept(s, s', key) && s'.perUnit == s.perUnit
    requires key in s.orders && key in s'.orders && SamePayment(s.orders[key], s'.orders[key])
    requires s'.ledger.epayCredited == s.ledger.epayCredited && s'.ledger.epayTotal == s.ledger.epayTotal
    ensures s'.ledger.epayTotal == Owed(s'.orders, s'.ledger.epayCredited, s'.perUnit)
  {
    forall k | k in s.ledger.epayCredited
      ensures k in s.orders && k in s'.orders && SamePayment(s.orders[k], s'.orders[k])
    {
      assert OrderAgrees(s, k);
    }
    OwedSame(s.orders, s'.orders, s.ledger.epayCredited, s.perUnit);
  }

  /** A transaction leaves the books of its order in agreement. */
  lemma TransactAgrees(s: System, key: string, job: Job)
    requires key in s.orders && OrderAgrees(s, key)
    requires !Crediting(s, key)
    ensures OrderAgrees(Transact(s, key, job), key)
  {
    var o := s.orders[key];
    AdminGrantIsRight(o, s.perUnit);
    if o.provider.Stripe? {
      StripeGrantIsRight(o, s.perUnit);
    }
    assert forall status :: Worth(o.(status := status), s.perUnit) == Worth(o, s.perUnit);
  }

  lemma TransactPreserves(s: System, t: ThreadId)
    requires BooksAgree(s) && t in s.work && AloneOnOrder(s, t) && s.work[t].progress.Start?
    requires s.lock.threads[t].key in s.orders
    ensures BooksAgree(Goto(Transact(s, s.lock.threads[t].key, s.work[t].job), t, End))
  {
    var key := s.lock.threads[t].key;
    var s' := Goto(Transact(s, key, s.work[t].job), t, End);
    assert OrderAgrees(s, key);
    TransactAgrees(s, key, s.work[t].job);
    OwedAfterWrite(s, s', key);
    LocalStep(s, t, End, s');
  }

  lemma StartPreserves(s: System, t: ThreadId, ok: bool)
    requires BooksAgree(s) && t in s.work && AloneOnOrder(s, t)
    requires s.work[t].progress.Start? && s.lock.threads[t].phase.Critical?
    ensures BooksAgree(Body(s, t, ok))
  {
    var s' := Body(s, t, ok);
    var key := s.lock.threads[t].key;
    var job := s.work[t].job;
    if key in s.orders && ok && !job.EpayNotify? && !job.StripeAsyncFailed? {
      TransactPreserves(s, t);
    } else {
      assert OrderAgrees(s, key);
      LocalStep(s, t, s'.work[t].progress, s');
    }
  }

  lemma LoadedPreserves(s: System, t: ThreadId, ok: bool)
    requires BooksAgree(s) && t in s.work && AloneOnOrder(s, t) && s.work[t].progress.Loaded?
    ensures BooksAgree(Body(s, t, ok))
  {
    var s' := Body(s, t, ok);
    var key := s.lock.threads[t].key;
    assert OrderAgrees(s, key) && WorkAgrees(s, t);
    OwedAfterWrite(s, s', key);
    LocalStep(s, t, s'.work[t].progress, s');
  }

  lemma SavedPreserves(s: System, t: ThreadId, ok: bool)
    requires BooksAgree(s) && t in s.work && AloneOnOrder(s, t) && s.work[t].progress.Saved?
    ensures BooksAgree(Body(s, t, ok))
  {
    var s' := Body(s, t, ok);
    var key := s.lock.threads[t].key;
    assert OrderAgrees(s, key) && WorkAgrees(s, t);
    if ok {
      EpayGrantIsRight(s.orders[key], s.perUnit);
      OwedPick(s'.orders, s'.ledger.epayCredited, s.perUnit, key);
      assert s'.ledger.epayCredited - {key} == s.ledger.epayCredited;
    }
    assert OrderAgrees(s', key);
    LocalStep(s, t, End, s');
  }

  lemma BodyMovePreserves(s: System, t: ThreadId, ok: bool)
    requires Inv(s) && Apply(s, BodyMove(t, ok)).Some?
    ensures Inv(Body(s, t, ok))
  {
    CriticalIsAlone(s, t);
    match s.work[t].progress
    case Start => StartPreserves(s, t, ok);
    case Loaded(_) => LoadedPreserves(s, t, ok);
    case Saved(_) => SavedPreserves(s, t, ok);
    case End =>
  }

  lemma MovePreserves(s: System, m: Move)
    requires Inv(s) && Apply(s, m).Some?
    ensures Inv(Apply(s, m).value)
  {
    match m
    case Arrive(t, key, job) => ArrivePreserves(s, t, key, job);
    case LockMove(t, alloc) => LockMovePreserves(s, t, alloc);
    case BodyMove(t, ok) => BodyMovePreserves(s, t, ok);
    case Insert(key, order) => InsertPreserves(s, key, order);
  }

  lemma {:induction false} RunsAreInvariant(states: seq<System>, moves: seq<Move>, i: nat)
    requires Run(states, moves) && i < |states|
    ensures Inv(states[i])
  {
    if i == 0 {
      assert Counters(Empty.threads, 0) == {};
    } else {
      RunsAreInvariant(states, moves, i - 1);
      assert Apply(states[i - 1], moves[i - 1]) == Some(states[i - 1 + 1]);
      MovePreserves(states[i - 1], moves[i - 1]);
    }
  }

  // ---------- what crediting promises ----------

  /** In every state of every run an order has left pending at most once and has
      been credited at most once, only successful orders are credited, and each with
      what it is worth. */
  lemma CreditedAtMostOnce(states: seq<System>, moves: seq<Move>, i: nat, key: string)
    requires Run(states, moves) && i < |states|
    ensures var s := states[i];
            && s.ledger.leaves[key] <= 1
            && s.ledger.credits[key] <= 1
            && (key in s.ledger.credits ==>
                  && key in s.orders && s.orders[key].status.Success?
                  && key in s.ledger.granted && RightGrant(s.orders[key], s.ledger.granted[key], s.perUnit))
            && (key in s.orders && s.orders[key].status.Pending? ==> key !in s.ledger.leaves && key !in s.ledger.credits)
  {
    RunsAreInvariant(states, moves, i);
    assert OrderAgrees(states[i], key);
  }

  lemma TerminalStep(s: System, m: Move, key: string)
    requires BooksAgree(s) && Apply(s, m).Some?
    requires key in s.orders && !s.orders[key].status.Pending?
    ensures var s' := Apply(s, m).value; key in s'.orders && s'.orders[key] == s.orders[key]
  {
    if m.BodyMove? {
      assert WorkAgrees(s, m.thread);
    }
  }

  /** No step of any thread ever rewrites an order that has left pending. */
  lemma {:induction false} TerminalIsFinal(states: seq<System>, moves: seq<Move>, i: nat, j: nat, key: string)
    requires Run(states, moves) && i <= j < |states|
    requires key in states[i].orders && !states[i].orders[key].status.Pending?
    ensures key in states[j].orders && states[j].orders[key] == states[i].orders[key]
    decreases j - i
  {
    if i < j {
      TerminalIsFinal(states, moves, i, j - 1, key);
      RunsAreInvariant(states, moves, j - 1);
      assert Apply(states[j - 1], moves[j - 1]) == Some(states[j - 1 + 1]);
      TerminalStep(states[j - 1], moves[j - 1], key);
    }
  }

  /** When all handlers have returned, the quota granted by Epay callbacks is
      what is owed for the orders they moved to success, less those whose
      quota write failed; with no failed write it is exactly what is owed. */
  lemma EpayTotalIsExact(states: seq<System>, moves: seq<Move>, i: nat)
    requires Run(states, moves) && i < |states|
    requires forall t :: t in states[i].lock.threads ==> states[i].lock.threads[t].phase.Done?
    ensures var s := states[i];
            && s.ledger.epayTotal == Owed(s.orders, s.ledger.epayMoved - s.ledger.epayLost, s.perUnit)
            && (s.ledger.epayLost == {} ==> s.ledger.epayTotal == Owed(s.orders, s.ledger.epayMoved, s.perUnit))
            && (forall k :: k in s.ledger.epayMoved ==> k in s.orders && s.orders[k].status.Success?)
  {
    var s := states[i];
    RunsAreInvariant(states, moves, i);
    forall k ensures k in s.ledger.epayCredited <==> k in s.ledger.epayMoved - s.ledger.epayLost {
      assert OrderAgrees(s, k);
      assert forall t :: t in s.work ==> WorkAgrees(s, t) && !s.work[t].progress.Saved?;
    }
    assert s.ledger.epayCredited == s.ledger.epayMoved - s.ledger.epayLost;
    assert s.ledger.epayLost == {} ==> s.ledger.epayMoved - s.ledger.epayLost == s.ledger.epayMoved;
    assert forall k :: k in s.ledger.epayMoved ==> OrderAgrees(s, k);
  }

  // ---------- what each handler does ----------

  /** No body move of `t` among the moves from `i` up to `j`. */
  predicate Waits(moves: seq<Move>, t: ThreadId, i: nat, j: nat)
    requires i <= j <= |moves|
  {
    forall k :: i <= k < j ==> !(moves[k].BodyMove? && moves[k].thread == t)
  }

  lemma OthersKeepWork(s: System, m: Move, t: ThreadId)
    requires Apply(s, m).Some? && t in s.work && t in s.lock.threads && !(m.BodyMove? && m.thread == t)
    ensures var s' := Apply(s, m).value;
            && t in s'.work && s'.work[t] == s.work[t]
            && t in s'.lock.threads && s'.lock.threads[t].key == s.lock.threads[t].key && s'.perUnit == s.perUnit
  {
    if m.LockMove? {
      AdvanceKeepsOthers(s.lock, m.thread, m.alloc, Apply(s, m).value.lock);
    }
  }

  lemma {:induction false} WorkWaits(states: seq<System>, moves: seq<Move>, t: ThreadId, i: nat, j: nat)
    requires Run(states, moves) && i <= j < |states| && Waits(moves, t, i, j)
    requires t in states[i].work && t in states[i].lock.threads
    ensures t in states[j].work && states[j].work[t] == states[i].work[t]
    ensures t in states[j].lock.threads && states[j].lock.threads[t].key == states[i].lock.threads[t].key
    ensures states[j].perUnit == states[i].perUnit
  {
    if i < j {
      WorkWaits(states, moves, t, i, j - 1);
      assert Apply(states[j - 1], moves[j - 1]) == Some(states[j - 1 + 1]);
      OthersKeepWork(states[j - 1], moves[j - 1], t);
    }
  }

  /** The first operation of a callback reads a pending Epay order and decides. */
  lemma EpayDecides(s: System, t: ThreadId, ok: bool, m: string)
    requires t in s.work && t in s.lock.threads && s.work[t] == Work(EpayNotify(m), Start)
    ensures var s', key := Body(s, t, ok), s.lock.threads[t].key;
            && s'.orders == s.orders && s'.ledger == s.ledger && s'.perUnit == s.perUnit && t in s'.work
            && s'.work[t] == Work(EpayNotify(m),
                 if key in s.orders && s.orders[key].provider == Epay && s.orders[key].status == Pending
                 then Loaded(s.orders[key].(payMethod := m, status := Success)) else End)
  {
  }

  lemma EpaySaves(s: System, t: ThreadId, m: string, row: Order)
    requires t in s.work && t in s.lock.threads && s.work[t] == Work(EpayNotify(m), Loaded(row))
    ensures var s', key := Body(s, t, true), s.lock.threads[t].key;
            && s'.orders == s.orders[key := row] && s'.perUnit == s.perUnit && t in s'.work
            && s'.work[t] == Work(EpayNotify(m), Saved(row))
  {
  }

  lemma EpayCredits(s: System, t: ThreadId, m: string, row: Order)
    requires t in s.work && t in s.lock.threads && s.work[t] == Work(EpayNotify(m), Saved(row)) && row.provider == Epay
    ensures var s', key := Body(s, t, true), s.lock.threads[t].key;
            && s'.orders == s.orders && key in s'.ledger.credits && key in s'.ledger.granted
            && Near(s'.ledger.granted[key], row.amount as real * s.perUnit)
            && (s'.ledger.epayTotal - s.ledger.epayTotal) as real == s'.ledger.granted[key]
  {
    EpayGrantIsRight(row, s.perUnit);
  }

  /** A successful Epay callback, whatever the other threads do between its operations:
      if it finds the order pending and of its provider and its writes go through,
      the order ends successful with the callback's payment method, and the user is
      granted the whole part of amount times quota per dollar. */
  lemma EpayCallback(states: seq<System>, moves: seq<Move>, t: ThreadId, i: nat, j: nat, k: nat, key: string, m: string)
    requires Run(states, moves) && i < j < k < |moves| && moves[i].BodyMove? && moves[i].thread == t
    requires moves[j] == BodyMove(t, true) && moves[k] == BodyMove(t, true)
    requires Waits(moves, t, i + 1, j) && Waits(moves, t, j + 1, k)
    requires t in states[i].work && t in states[i].lock.threads && states[i].lock.threads[t].key == key
    requires states[i].work[t] == Work(EpayNotify(m), Start)
    requires key in states[i].orders && states[i].orders[key].provider == Epay && states[i].orders[key].status == Pending
    ensures var o, f := states[i].orders[key], states[k + 1];
            && key in f.orders && f.orders[key] == o.(payMethod := m, status := Success)
            && key in f.ledger.credits && key in f.ledger.granted
            && Near(f.ledger.granted[key], o.amount as real * states[i].perUnit)
            && (f.ledger.epayTotal - states[k].ledger.epayTotal) as real == f.ledger.granted[key]
  {
    var row := states[i].orders[key].(payMethod := m, status := Success);
    StepOf(states, moves, t, i);
    EpayDecides(states[i], t, moves[i].ok, m);
    WorkWaits(states, moves, t, i + 1, j);
    EpaySavesLater(states, moves, t, j, k, key, m, row);
    EpayCreditsLater(states, moves, t, k, key, m, row);
  }

  lemma EpaySavesLater(states: seq<System>, moves: seq<Move>, t: ThreadId, j: nat, k: nat, key: string, m: string, row: Order)
    requires Run(states, moves) && j < k < |moves| && moves[j] == BodyMove(t, true) && Waits(moves, t, j + 1, k)
    requires t in states[j].work && t in states[j].lock.threads && states[j].lock.threads[t].key == key
    requires states[j].work[t] == Work(EpayNotify(m), Loaded(row))
    ensures t in states[k].work && t in states[k].lock.threads && states[k].lock.threads[t].key == key
    ensures states[k].work[t] == Work(EpayNotify(m), Saved(row)) && states[k].perUnit == states[j].perUnit
  {
    StepOf(states, moves, t, j);
    EpaySaves(states[j], t, m, row);
    WorkWaits(states, moves, t, j + 1, k);
  }

  lemma EpayCreditsLater(states: seq<System>, moves: seq<Move>, t: ThreadId, k: nat, key: string, m: string, row: Order)
    requires Run(states, moves) && k < |moves| && moves[k] == BodyMove(t, true)
    requires t in states[k].work && t in states[k].lock.threads && states[k].lock.threads[t].key == key
    requires states[k].work[t] == Work(EpayNotify(m), Saved(row))
    ensures var f := states[k + 1];
            && key in f.orders && f.orders[key] == row && key in f.ledger.credits && key in f.ledger.granted
            && Near(f.ledger.granted[key], row.amount as real * states[k].perUnit)
            && (f.ledger.epayTotal - states[k].ledger.epayTotal) as real == f.ledger.granted[key]
  {
    StepOf(states, moves, t, k);
    SavedIsStored(states, moves, t, k);
    EpayCredits(states[k], t, m, row);
  }

  /** Between saving and crediting nobody touches the order. */
  lemma SavedIsStored(states: seq<System>, moves: seq<Move>, t: ThreadId, k: nat)
    requires Run(states, moves) && k < |states|
    requires t in states[k].work && t in states[k].lock.threads && states[k].work[t].progress.Saved?
    ensures var s, key := states[k], states[k].lock.threads[t].key;
            key in s.orders && s.orders[key] == s.work[t].progress.local && s.orders[key].provider == Epay
  {
    RunsAreInvariant(states, moves, k);
    assert WorkAgrees(states[k], t);
  }

  /** A body move in a run is a step of the body. */
  lemma StepOf(states: seq<System>, moves: seq<Move>, t: ThreadId, i: nat)
    requires Run(states, moves) && i < |moves| && moves[i].BodyMove? && moves[i].thread == t
    ensures t in states[i].work && t in states[i].lock.threads && states[i + 1] == Body(states[i], t, moves[i].ok)
    ensures states[i + 1].lock == states[i].lock
  {
    assert Apply(states[i], moves[i]) == Some(states[i + 1]);
  }

  /** A Stripe payment failure marks exactly a pending Stripe order, once saved. */
  lemma StripeFailureDecides(s: System, t: ThreadId, ok: bool)
    requires t in s.work && t in s.lock.threads && s.work[t] == Work(StripeAsyncFailed, Start)
    ensures var s', key := Body(s, t, ok), s.lock.threads[t].key;
            && s'.orders == s.orders && s'.ledger == s.ledger && t in s'.work
            && s'.work[t] == Work(StripeAsyncFailed,
                 if key in s.orders && s.orders[key].provider == Stripe && s.orders[key].status == Pending
                 then Loaded(s.orders[key].(status := Failed)) else End)
  {
  }

  lemma StripeFailureSaves(s: System, t: ThreadId, row: Order)
    requires t in s.work && t in s.lock.threads && s.work[t] == Work(StripeAsyncFailed, Loaded(row))
    ensures var s', key := Body(s, t, true), s.lock.threads[t].key;
            && s'.orders == s.orders[key := row] && s'.ledger.credits == s.ledger.credits
            && s'.ledger.granted == s.ledger.granted && t in s'.work && s'.work[t].progress == End
  {
  }

  /** A write the database refuses leaves the order and the ledger alone. */
  lemma RefusedSaveChangesNothing(s: System, t: ThreadId)
    requires t in s.work && t in s.lock.threads && !s.work[t].progress.Saved?
    ensures var s' := Body(s, t, false); s'.orders == s.orders && s'.ledger == s.ledger
  {
  }

  /** When a one-transaction handler acts on an order: on a pending one, if it is a
      Stripe order or, for the administrator, if it is worth at least one unit. */
  predicate Acts(job: Job, o: Order, perUnit: real) {
    o.status == Pending && (if job == AdminComplete then Worth(o, perUnit) >= 1.0 else o.provider == Stripe)
  }

  /** A one-transaction handler that acts moves the order to success, or expires it,
      and grants a successful one what it is worth; otherwise it changes nothing. */
  lemma TransactionOutcome(s: System, t: ThreadId, job: Job)
    requires t in s.work && t in s.lock.threads && s.work[t] == Work(job, Start)
    requires job == AdminComplete || job == StripeFulfil || job == StripeExpire
    ensures var s', key := Body(s, t, true), s.lock.threads[t].key;
            if key in s.orders && Acts(job, s.orders[key], s.perUnit) then
              var status := if job == StripeExpire then Expired else Success;
              && s'.orders == s.orders[key := s.orders[key].(status := status)]
              && (status == Success ==> key in s'.ledger.credits && key in s'.ledger.granted
                                        && RightGrant(s.orders[key], s'.ledger.granted[key], s.perUnit))
              && (status == Expired ==> s'.ledger.credits == s.ledger.credits && s'.ledger.granted == s.ledger.granted)
            else s'.orders == s.orders && s'.ledger == s.ledger
  {
    var key := s.lock.threads[t].key;
    if key in s.orders {
      AdminGrantIsRight(s.orders[key], s.perUnit);
      if s.orders[key].provider.Stripe? {
        StripeGrantIsRight(s.orders[key], s.perUnit);
      }
    }
  }

  /** While some handler has not returned, some handler can move: nothing ever sticks. */
  lemma HandlersNeverStick(states: seq<System>, moves: seq<Move>, i: nat, w: ThreadId, alloc: Cell) returns (m: Move)
    requires Run(states, moves) && i < |states| && alloc !in states[i].lock.refs
    requires w in states[i].lock.threads && states[i].lock.threads[w].phase != Done
    ensures !m.Arrive? && !m.Insert? && Apply(states[i], m).Some?
  {
    RunsAreInvariant(states, moves, i);
    var s := states[i];
    var t := Mover(s.lock, w, alloc);
    if s.lock.threads[t].phase.Critical? && !s.work[t].progress.End? {
      m := BodyMove(t, true);
    } else {
      m := LockMove(t, alloc);
    }
  }

  /** A new order is stored as it is given, exactly if it is pending and its trade number
      is free; nothing else changes. */
  lemma NewOrderIsStored(s: System, key: string, order: Order)
    ensures var next := Apply(s, Insert(key, order));
            && (next.Some? <==> order.status == Pending && key !in s.orders)
            && (next.Some? ==>
                  && key in next.value.orders && next.value.orders[key] == order
                  && next.value.orders - {key} == s.orders
                  && next.value.ledger == s.ledger && next.value.work == s.work && next.value.lock == s.lock)
  {
  }
}
