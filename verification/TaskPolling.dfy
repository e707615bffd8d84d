/** Polling asynchronous video tasks as the server does it: any number of pollers and
    timeout sweepers work on copies of the task and write back with a
    compare-and-set on the status they fetched; whoever finishes the task settles
    or refunds it. The stored quota is never changed. */
module TaskPolling {
  import opened Common
  import TaskVideo

  type PollerId = nat

  /** `details` stands for the result link, times, reason and data. */
  datatype Row = Row(status: string, progress: string, details: string, quota: int)

  const FAILURE := "FAILURE"
  const SUCCESS := "SUCCESS"
  const COMPLETE := "100%"

  /** What a success is priced by: the adaptor's own figure if positive, else tokens
      times ratios; nothing for tasks billed per call. */
  datatype Price = PerCall | Metered(adjusted: int, tokens: int, rates: Option<Rates>)

  datatype Rates = Rates(modelRatio: real, groupRatio: real, otherRatio: real)

  datatype Report = Report(status: string, progress: string, details: string, price: Price)

  /** A poller's copy of the task, and whether it has been worked on. */
  datatype Copy = Copy(row: Row, used: bool)

  /** `balance` is the user's funding source, `bills` counts settlements and refunds. */
  datatype State = State(row: Row, balance: int, bills: nat, copies: map<PollerId, Copy>)

  datatype Move =
    | Fetch(poller: PollerId)
    | Poll(poller: PollerId, report: Report, dbFails: bool, moneyFails: bool)
    | Sweep(poller: PollerId, legacy: bool, dbFails: bool, moneyFails: bool)
    | ChannelGone  // bulk update of the tasks of a missing channel

  predicate Open(row: Row) {
    row.progress != COMPLETE && row.status != FAILURE && row.status != SUCCESS
  }

  predicate Done(status: string) {
    status == SUCCESS || status == FAILURE
  }

  predicate Known(status: string) {
    status == "SUBMITTED" || status == "QUEUED" || status == "IN_PROGRESS" || Done(status)
  }

  function DefaultProgress(status: string): string {
    if status == "SUBMITTED" then "10%" else if status == "QUEUED" then "20%" else if status == "IN_PROGRESS" then "30%"
    else COMPLETE
  }

  /** The quota a success really costs, if it is re-billed at all. */
  function ActualQuota(p: Price): Option<int> {
    match p
    case PerCall => None
    case Metered(adjusted, tokens, rates) =>
      if adjusted > 0 then Some(adjusted)
      else if tokens > 0 && rates.Some? && rates.value.modelRatio > 0.0 then
        var r := rates.value;
        var q := TaskVideo.Truncate(tokens as real * r.modelRatio * r.groupRatio * r.otherRatio);
        if q > 0 then Some(q) else None
      else None
  }

  /** What settling a success with this price takes from the user. */
  function Extra(quota: int, p: Price, moneyFails: bool): int {
    if ActualQuota(p).Some? && !moneyFails then ActualQuota(p).value - quota else 0
  }

  function Reported(local: Row, r: Report): Row {
    Row(r.status,
        if r.status == FAILURE then COMPLETE else if r.progress != "" then r.progress else DefaultProgress(r.status),
        r.details, local.quota)
  }

  /** One poll of a copy: the stored row, the balance, whether it billed, and the copy. */
  function Update(row: Row, balance: int, local: Row, r: Report, dbFails: bool, moneyFails: bool): (Row, int, bool, Row) {
    var next := Reported(local, r);
    var written := !dbFails && row.status == local.status;
    if !Known(r.status) then (row, balance, false, next.(progress := local.progress))
    else if Done(r.status) && local.status != r.status && !written then (row, balance, false, next)
    else
      var row' := if written && next != local then next else row;
      if r.status == SUCCESS then
        var extra := Extra(local.quota, r.price, moneyFails);
        (row', balance - extra, true, next.(quota := local.quota + extra))
      else if r.status == FAILURE && local.quota != 0 then
        (row', if moneyFails then balance else balance + local.quota, true, next)
      else (row', balance, false, next)
  }

  function Expire(row: Row, balance: int, local: Row, legacy: bool, dbFails: bool, moneyFails: bool): (Row, int, bool, Row) {
    var next := Row(FAILURE, COMPLETE, "timed out", local.quota);
    if dbFails || row.status != local.status then (row, balance, false, next)
    else if legacy || local.quota == 0 then (next, balance, false, next)
    else (next, if moneyFails then balance else balance + local.quota, true, next)
  }

  function Apply(s: State, m: Move): State {
    match m
    case Fetch(p) => if Open(s.row) then s.(copies := s.copies[p := Copy(s.row, false)]) else s
    case ChannelGone => s.(row := Row(FAILURE, COMPLETE, "channel not found", s.row.quota))
    case Poll(p, r, dbFails, moneyFails) =>
      if p !in s.copies then s
      else Worked(s, p, Update(s.row, s.balance, s.copies[p].row, r, dbFails, moneyFails))
    case Sweep(p, legacy, dbFails, moneyFails) =>
      if p !in s.copies then s
      else Worked(s, p, Expire(s.row, s.balance, s.copies[p].row, legacy, dbFails, moneyFails))
  }

  function Worked(s: State, p: PollerId, result: (Row, int, bool, Row)): State {
    State(result.0, result.1, if result.2 then s.bills + 1 else s.bills, s.copies[p := Copy(result.3, true)])
  }

  function Run(s: State, moves: seq<Move>): State
    decreases moves
  {
    if moves == [] then s else Run(Apply(s, moves[0]), moves[1..])
  }

  function Start(row: Row, balance: int): State {
    State(row, balance, 0, map[])
  }

  // ---------- the poll as it is written ----------

  class Database {
    var row: Row
    var balance: int
    var bills: nat

    constructor (row: Row, balance: int)
      ensures this.row == row && this.balance == balance && bills == 0
    {
      this.row, this.balance, bills := row, balance, 0;
    }

    method UpdateWithStatus(from: string, to: Row, fails: bool) returns (won: bool)
      modifies this`row
      ensures won <==> !fails && old(row).status == from
      ensures row == if won then to else old(row)
    {
      won := !fails && row.status == from;
      if won {
        row := to;
      }
    }

    /** Takes `delta` from the funding source, or gives it back if negative. */
    method AdjustFunding(delta: int, fails: bool) returns (ok: bool)
      modifies this`balance
      ensures ok == !fails && balance == old(balance) - if fails then 0 else delta
    {
      ok := !fails;
      if ok {
        balance := balance - delta;
      }
    }
  }

  class Task {
    var row: Row

    constructor (row: Row)
      ensures this.row == row
    {
      this.row := row;
    }

    /** Settles the difference to the real quota; the new quota stays in memory. */
    method Recalculate(db: Database, actual: Option<int>, moneyFails: bool)
      modifies this, db`balance
      ensures var extra := if actual.Some? && !moneyFails then actual.value - old(row).quota else 0;
              row == old(row).(quota := old(row).quota + extra) && db.balance == old(db.balance) - extra
    {
      if actual.None? || actual.value == row.quota {
        return;
      }
      var ok := db.AdjustFunding(actual.value - row.quota, moneyFails);
      if ok {
        row := row.(quota := actual.value);
      }
    }

    method UpdateSingle(db: Database, r: Report, dbFails: bool, moneyFails: bool) returns (ok: bool)
      modifies this, db
      ensures var (row', balance', billed, local') := Update(old(db.row), old(db.balance), old(row), r, dbFails, moneyFails);
              db.row == row' && db.balance == balance' && row == local' && db.bills == old(db.bills) + if billed then 1 else 0
      ensures ok <==> Known(r.status)
    {
      var snap := row;
      row := row.(status := r.status, details := r.details);
      if !Known(r.status) {
        return false;
      }
      var shouldSettle, shouldRefund := r.status == SUCCESS, r.status == FAILURE && snap.quota != 0;
      var progress := DefaultProgress(r.status);
      if r.status == FAILURE {
        progress := COMPLETE;
      } else if r.progress != "" {
        progress := r.progress;
      }
      row := row.(progress := progress);
      if Done(row.status) && snap.status != row.status {
        var won := db.UpdateWithStatus(snap.status, row, dbFails);
        if !won {
          shouldSettle, shouldRefund := false, false;
        }
      } else if snap != row {
        var _ := db.UpdateWithStatus(snap.status, row, dbFails);
      }
      if shouldSettle {
        db.bills := db.bills + 1;
        Recalculate(db, ActualQuota(r.price), moneyFails);
      }
      if shouldRefund {
        db.bills := db.bills + 1;
        var _ := db.AdjustFunding(-row.quota, moneyFails);
      }
      return true;
    }

    method TimeOut(db: Database, legacy: bool, dbFails: bool, moneyFails: bool)
      modifies this, db
      ensures var (row', balance', billed, local') := Expire(old(db.row), old(db.balance), old(row), legacy, dbFails, moneyFails);
              db.row == row' && db.balance == balance' && row == local' && db.bills == old(db.bills) + if billed then 1 else 0
    {
      var oldStatus := row.status;
      row := Row(FAILURE, COMPLETE, "timed out", row.quota);
      var won := db.UpdateWithStatus(oldStatus, row, dbFails);
      if won && !legacy && row.quota != 0 {
        db.bills := db.bills + 1;
        var _ := db.AdjustFunding(-row.quota, moneyFails);
      }
    }
  }

  // ---------- one poller bills ----------

  /** Each fetched copy is worked on once, unless two tasks share their upstream id. */
  ghost predicate Orderly(s: State, m: Move, shared: bool) {
    (m.Poll? || m.Sweep?) && m.poller in s.copies ==> shared || !s.copies[m.poller].used
  }

  ghost predicate OrderlyRun(s: State, moves: seq<Move>, shared: bool)
    decreases moves
  {
    moves != [] ==> Orderly(s, moves[0], shared) && OrderlyRun(Apply(s, moves[0]), moves[1..], shared)
  }

  /** The move that finishes the task: its compare-and-set succeeds. */
  predicate Finishes(s: State, m: Move) {
    Finishing(m) && m.poller in s.copies && !m.dbFails && s.row.status == s.copies[m.poller].row.status
  }

  /** The moves that finish the task, in order. */
  function Finishers(s: State, moves: seq<Move>): seq<Move>
    decreases moves
  {
    if moves == [] then []
    else (if Finishes(s, moves[0]) then [moves[0]] else []) + Finishers(Apply(s, moves[0]), moves[1..])
  }

  /** What the user has paid after the finishing move, starting from the quota. */
  function Paid(m: Move, quota: int): int
    requires Finishing(m)
  {
    if m.Poll? && m.report.status == SUCCESS then quota + Extra(quota, m.report.price, m.moneyFails)
    else if m.moneyFails || (m.Sweep? && m.legacy) then quota
    else 0
  }

  /** The status the finishing move leaves. */
  function Ending(m: Move): (status: string)
    requires Finishing(m)
    ensures Done(status)
  {
    if m.Poll? then m.report.status else FAILURE
  }

  predicate Finishing(m: Move) {
    m.Sweep? || (m.Poll? && Done(m.report.status))
  }

  /** Copies that are still to be worked on are open and carry the stored quota. */
  ghost predicate Live(s: State) {
    forall p :: p in s.copies && !s.copies[p].used ==>
      !Done(s.copies[p].row.status) && s.copies[p].row.quota == s.row.quota
  }

  lemma StepKeeps(s: State, m: Move)
    requires Live(s) && Orderly(s, m, false)
    ensures var s' := Apply(s, m);
            && Live(s') && s'.row.quota == s.row.quota
            && (Done(s.row.status) ==> Done(s'.row.status) && s'.balance == s.balance && s'.bills == s.bills && !Finishes(s, m))
            && (!Finishes(s, m) ==> s'.balance == s.balance && s'.bills == s.bills)
            && (Finishes(s, m) ==> s'.row.status == Ending(m) && s'.bills <= s.bills + 1
                                   && s.balance - s'.balance == Paid(m, s.row.quota) - s.row.quota)
            && (m.ChannelGone? ==> s'.row.status == FAILURE)
            && (!m.ChannelGone? && Done(s.row.status) ==> s'.row.status == s.row.status)
            && (!m.ChannelGone? && !Finishes(s, m) && !Done(s.row.status) ==> !Done(s'.row.status))
  {
  }

  ghost predicate Gone(moves: seq<Move>) {
    ChannelGone in moves
  }

  lemma {:induction false} DoneStays(s: State, moves: seq<Move>)
    requires Live(s) && OrderlyRun(s, moves, false) && Done(s.row.status)
    ensures var f := Run(s, moves);
            && f.balance == s.balance && f.bills == s.bills && f.row.quota == s.row.quota && Finishers(s, moves) == []
            && f.row.status == if Gone(moves) then FAILURE else s.row.status
    decreases moves
  {
    if moves != [] {
      StepKeeps(s, moves[0]);
      assert Gone(moves) <==> moves[0] == ChannelGone || Gone(moves[1..]);
      DoneStays(Apply(s, moves[0]), moves[1..]);
    }
  }

  /** Over every interleaving of any number of pollers and sweepers at most one move
      finishes the task, and the user has paid exactly what that move calls for, or
      the stored quota if there is none. The row tells how it ended, unless its
      channel went missing. */
  lemma {:induction false} OneFinisher(s: State, moves: seq<Move>)
    requires Live(s) && OrderlyRun(s, moves, false) && !Done(s.row.status)
    ensures var f, ms := Run(s, moves), Finishers(s, moves);
            && |ms| <= 1 && f.row.quota == s.row.quota && f.bills <= s.bills + |ms|
            && (ms == [] ==> f.balance == s.balance && (Done(f.row.status) <==> Gone(moves)))
            && (ms != [] ==>
                  && Finishing(ms[0]) && s.balance - f.balance == Paid(ms[0], s.row.quota) - s.row.quota
                  && (!Gone(moves) ==> f.row.status == Ending(ms[0])))
            && (Gone(moves) ==> f.row.status == FAILURE)
    decreases moves
  {
    if moves != [] {
      StepKeeps(s, moves[0]);
      assert Gone(moves) <==> moves[0] == ChannelGone || Gone(moves[1..]);
      var s' := Apply(s, moves[0]);
      if Done(s'.row.status) {
        DoneStays(s', moves[1..]);
      } else {
        OneFinisher(s', moves[1..]);
      }
    }
  }

  // ---------- what the finishing move charges ----------

  /** What a success leaves paid: its own figure if that is positive, else the whole part
      of tokens times ratios if that is at least one, else what was paid before. */
  ghost predicate Charges(price: Price, quota: int, moneyFails: bool, paid: int) {
    if moneyFails || price.PerCall? then paid == quota
    else if price.adjusted > 0 then paid == price.adjusted
    else if price.tokens <= 0 || price.rates.None? || price.rates.value.modelRatio <= 0.0 then paid == quota
    else
      var r := price.rates.value;
      WholePart(price.tokens as real * r.modelRatio * r.groupRatio * r.otherRatio, quota, paid)
  }

  ghost predicate WholePart(exact: real, quota: int, paid: int) {
    if exact < 1.0 then paid == quota else paid as real <= exact < paid as real + 1.0
  }

  /** What the user has paid in all once this move has finished the task. */
  ghost predicate RightPayment(m: Move, quota: int, paid: int) {
    match m
    case Poll(_, r, _, moneyFails) =>
      if r.status == "SUCCESS" then Charges(r.price, quota, moneyFails, paid)
      else paid == if moneyFails then quota else 0
    case Sweep(_, legacy, _, moneyFails) => paid == if legacy || moneyFails then quota else 0
    case _ => false
  }

  lemma ExtraCharges(quota: int, price: Price, moneyFails: bool)
    ensures Charges(price, quota, moneyFails, quota + Extra(quota, price, moneyFails))
  {
    if price.Metered? && price.rates.Some? {
      var r := price.rates.value;
      TruncatedPart(price.tokens as real * r.modelRatio * r.groupRatio * r.otherRatio, quota);
    }
  }

  lemma TruncatedPart(exact: real, quota: int)
    ensures var q := TaskVideo.Truncate(exact); WholePart(exact, quota, if q > 0 then q else quota)
  {
  }

  /** Over every interleaving the user has paid what the finishing move calls for. */
  lemma FinisherSetsCharge(row: Row, funds: int, moves: seq<Move>)
    requires Open(row) && OrderlyRun(Start(row, funds - row.quota), moves, false)
    ensures var s := Start(row, funds - row.quota);
            var ms, paid := Finishers(s, moves), funds - Run(s, moves).balance;
            |ms| <= 1 && if ms == [] then paid == row.quota else RightPayment(ms[0], row.quota, paid)
  {
    OneFinisher(Start(row, funds - row.quota), moves);
    var ms := Finishers(Start(row, funds - row.quota), moves);
    if ms != [] && ms[0].Poll? {
      ExtraCharges(row.quota, ms[0].report.price, ms[0].moneyFails);
    }
  }

  // ---------- what one poll writes ----------

  function ShownProgress(r: Report): string {
    if r.status == "FAILURE" then "100%"
    else if r.progress != "" then r.progress
    else if r.status == "SUBMITTED" then "10%"
    else if r.status == "QUEUED" then "20%"
    else if r.status == "IN_PROGRESS" then "30%"
    else "100%"
  }

  /** A poll with a known status writes it with its progress if the stored status is still
      the fetched one. It bills a success, or refunds a failure that cost something, only if
      that write went through or the copy already had the status. */
  lemma PollWrites(row: Row, balance: int, local: Row, r: Report, dbFails: bool, moneyFails: bool)
    ensures var (row', balance', billed, local') := Update(row, balance, local, r, dbFails, moneyFails);
            var known := r.status in {"SUBMITTED", "QUEUED", "IN_PROGRESS", "SUCCESS", "FAILURE"};
            var next := Row(r.status, if known then ShownProgress(r) else local.progress, r.details, local.quota);
            var wins := !dbFails && row.status == local.status;
            && row' == (if known && wins && next != local then next else row)
            && (billed <==> && (r.status == "SUCCESS" || (r.status == "FAILURE" && local.quota != 0))
                            && (wins || local.status == r.status))
            && local'.(quota := local.quota) == next
            && (billed && r.status == "SUCCESS" ==>
                  && local'.quota == local.quota + (balance - balance')
                  && Charges(r.price, local.quota, moneyFails, local'.quota))
            && (!(billed && r.status == "SUCCESS") ==>
                  local'.quota == local.quota && balance' == balance + if billed && !moneyFails then local.quota else 0)
  {
    ExtraCharges(local.quota, r.price, moneyFails);
  }

  /** A task that has run out of time is failed if its stored status is still the fetched
      one, and then refunded, unless it is a legacy task or cost nothing. */
  lemma SweepWrites(row: Row, balance: int, local: Row, legacy: bool, dbFails: bool, moneyFails: bool)
    ensures var (row', balance', billed, local') := Expire(row, balance, local, legacy, dbFails, moneyFails);
            var wins := !dbFails && row.status == local.status;
            && local' == Row("FAILURE", "100%", "timed out", local.quota)
            && row' == (if wins then local' else row)
            && (billed <==> wins && !legacy && local.quota != 0)
            && balance' == balance + if billed && !moneyFails then local.quota else 0
  {
  }

  /** A missing channel fails the task, keeps what was paid, and no poller fetches it again. */
  lemma MissingChannelFails(s: State, p: PollerId)
    ensures var s' := Apply(s, ChannelGone);
            && s'.row == Row("FAILURE", "100%", "channel not found", s.row.quota)
            && s'.balance == s.balance && s'.bills == s.bills && s'.copies == s.copies
            && Apply(s', Fetch(p)) == s'
  {
  }

  /** Whoever fetches an open task can finish it with its next report. */
  lemma FetchedCanFinish(s: State, p: PollerId, r: Report)
    requires Open(s.row) && (r.status == "SUCCESS" || r.status == "FAILURE")
    ensures var s', m := Apply(s, Fetch(p)), Poll(p, r, false, false);
            && s'.row == s.row && Orderly(s', m, false) && Finishes(s', m)
            && Apply(s', m).row.status == r.status
  {
  }

  // ---------- what the row tells ----------

  /** The user, who would have `funds` without the task, has paid what the row says:
      its quota, or nothing once it has failed. */
  predicate Settled(s: State, funds: int) {
    funds - s.balance == if s.row.status == FAILURE then 0 else s.row.quota
  }

  /** The finishing move leaves the charge the row tells: a success that re-bills
      nothing, or a failure whose refund goes through. */
  predicate Consistent(m: Move, quota: int)
    requires Finishing(m)
  {
    if Ending(m) == SUCCESS then Extra(quota, m.report.price, m.moneyFails) == 0
    else quota == 0 || !(m.moneyFails || (m.Sweep? && m.legacy))
  }

  /** Exactly when the row tells what the user has paid: the task is unfinished or its
      finishing move is consistent; and if its channel went missing, only if the
      user ended up paying nothing. */
  lemma RowTellsCharge(row: Row, funds: int, moves: seq<Move>)
    requires Open(row) && OrderlyRun(Start(row, funds - row.quota), moves, false)
    ensures var s := Start(row, funds - row.quota);
            var ms := Finishers(s, moves);
            && |ms| <= 1 && (ms != [] ==> Finishing(ms[0]))
            && funds - Run(s, moves).balance == (if ms == [] then row.quota else Paid(ms[0], row.quota))
            && (Settled(Run(s, moves), funds) <==>
                if Gone(moves) then (if ms == [] then row.quota else Paid(ms[0], row.quota)) == 0
                else ms == [] || Consistent(ms[0], row.quota))
  {
    OneFinisher(Start(row, funds - row.quota), moves);
  }

  // ---------- tasks that share their upstream id ----------

  /** In all interleavings a task is settled or refunded at most once. */
  ghost predicate BillsOnce(shared: bool) {
    forall row: Row, balance: int, moves: seq<Move> ::
      Open(row) && OrderlyRun(Start(row, balance), moves, shared) ==> Run(Start(row, balance), moves).bills <= 1
  }

  lemma Unfold(s: State, m: Move, rest: seq<Move>, shared: bool)
    ensures Run(s, [m] + rest) == Run(Apply(s, m), rest)
    ensures OrderlyRun(s, [m] + rest, shared) <==> Orderly(s, m, shared) && OrderlyRun(Apply(s, m), rest, shared)
  {
    assert ([m] + rest)[1..] == rest;
  }

  /** A failure heard twice for one copy is refunded twice: the second time the status
      does not change, and nothing holds the refund back. */
  lemma SharedIdRefundsTwice(row: Row, balance: int, m: Move) returns (moves: seq<Move>)
    requires Open(row) && row.quota != 0 && m.Poll? && m.poller == 0 && m.report.status == FAILURE && !m.dbFails && !m.moneyFails
    ensures OrderlyRun(Start(row, balance), moves, true)
    ensures var f := Run(Start(row, balance), moves); f.bills == 2 && f.balance == balance + 2 * row.quota
  {
    var s1 := Apply(Start(row, balance), Fetch(0));
    var s2 := Apply(s1, m);
    assert s2.copies[0].row == s2.row && s2.row.status == FAILURE && s2.row.quota == row.quota;
    Unfold(s2, m, [], true);
    Unfold(s1, m, [m] + [], true);
    Unfold(Start(row, balance), Fetch(0), [m] + ([m] + []), true);
    moves := [Fetch(0)] + ([m] + ([m] + []));
  }

  /** Tasks are billed at most once exactly when no two share their upstream id. */
  lemma BilledOnce(shared: bool)
    ensures BillsOnce(shared) <==> !shared
  {
    if shared {
      var row := Row("QUEUED", "20%", "", 1);
      var m := Poll(0, Report(FAILURE, "", "", PerCall), false, false);
      var moves := SharedIdRefundsTwice(row, 0, m);
      assert Run(Start(row, 0), moves).bills == 2;
    } else {
      forall row: Row, balance: int, moves: seq<Move> | Open(row) && OrderlyRun(Start(row, balance), moves, shared)
        ensures Run(Start(row, balance), moves).bills <= 1
      {
        OneFinisher(Start(row, balance), moves);
      }
    }
  }
}
