/** Polling an asynchronous video task: a success re-bills the task by its token
    count, a failure returns what was charged. Ratios are reals, and the money,
    save and refund operations may fail as the inputs say. */
module TaskVideo {

  datatype Row = Row(status: string, progress: string, quota: int)

  /** Unpriced when the model name, its ratio or the group cannot be found. */
  datatype Pricing = Unpriced | Priced(modelRatio: real, groupRatio: real)

  datatype Report = Report(status: string, progress: string, tokens: int, pricing: Pricing)

  /** Which of the three writes of one poll fail. */
  datatype Faults = Faults(money: bool, save: bool, refund: bool)

  /** The stored task and the user's quota. */
  datatype State = State(row: Row, balance: int)

  datatype Poll = Poll(report: Report, faults: Faults)

  const FAILURE := "FAILURE"
  const SUCCESS := "SUCCESS"
  const COMPLETE := "100%"

  /** Conversion of a float to an integer, toward zero. */
  function Truncate(x: real): int {
    if x >= 0.0 then x.Floor else -((-x).Floor)
  }

  /** An empty status counts as a failure. */
  function Normalize(r: Report): Report {
    if r.status == "" then Report(FAILURE, "", 0, Unpriced) else r
  }

  predicate Rebills(r: Report) {
    r.status == SUCCESS && r.tokens > 0 && r.pricing.Priced? && r.pricing.modelRatio > 0.0
  }

  function ActualQuota(r: Report): int
    requires Rebills(r)
  {
    Truncate(r.tokens as real * r.pricing.modelRatio * r.pricing.groupRatio)
  }

  predicate Known(status: string) {
    status == "SUBMITTED" || status == "QUEUED" || status == "IN_PROGRESS" || status == SUCCESS || status == FAILURE
  }

  function DefaultProgress(status: string): string {
    if status == "SUBMITTED" then "10%" else if status == "QUEUED" then "20%" else if status == "IN_PROGRESS" then "30%"
    else COMPLETE
  }

  /** The quota of the in-memory task after re-billing. */
  function BilledQuota(quota: int, r: Report, moneyFails: bool): int {
    if Rebills(r) && !moneyFails then ActualQuota(r) else quota
  }

  predicate Refunds(row: Row, r: Report, f: Faults) {
    r.status == FAILURE && row.status != FAILURE && row.quota > 0 && !f.save && !f.refund
  }

  /** One poll of a fetched task. */
  function Step(s: State, p: Poll): State {
    var r, f := Normalize(p.report), p.faults;
    if !Known(r.status) then s
    else
      var billed := BilledQuota(s.row.quota, r, f.money);
      var progress := if r.status == FAILURE then COMPLETE else if r.progress != "" then r.progress else DefaultProgress(r.status);
      State(
        if f.save then s.row else Row(r.status, progress, billed),
        s.balance - (billed - s.row.quota) + if Refunds(s.row, r, f) then s.row.quota else 0)
  }

  /** Only unfinished tasks are fetched for a poll. */
  predicate Open(row: Row) {
    row.progress != COMPLETE && row.status != FAILURE && row.status != SUCCESS
  }

  function Next(s: State, p: Poll): State {
    if Open(s.row) then Step(s, p) else s
  }

  function Run(s: State, polls: seq<Poll>): State
    decreases polls
  {
    if polls == [] then s else Run(Next(s, polls[0]), polls[1..])
  }

  // ---------- the poll as the poller performs it ----------

  class Database {
    var row: Row
    var balance: int

    constructor (row: Row, balance: int)
      ensures this.row == row && this.balance == balance
    {
      this.row, this.balance := row, balance;
    }

    method DecreaseUserQuota(amount: int, fails: bool) returns (ok: bool)
      modifies this`balance
      ensures ok <==> amount >= 0 && !fails
      ensures balance == old(balance) - if ok then amount else 0
    {
      ok := amount >= 0 && !fails;
      if ok {
        balance := balance - amount;
      }
    }

    method IncreaseUserQuota(amount: int, fails: bool) returns (ok: bool)
      modifies this`balance
      ensures ok <==> amount >= 0 && !fails
      ensures balance == old(balance) + if ok then amount else 0
    {
      ok := amount >= 0 && !fails;
      if ok {
        balance := balance + amount;
      }
    }
  }

  class Task {
    var status: string
    var progress: string
    var quota: int

    constructor (row: Row)
      ensures status == row.status && progress == row.progress && quota == row.quota
    {
      status, progress, quota := row.status, row.progress, row.quota;
    }

    /** Charges or returns the difference to the quota the tokens cost. */
    method Rebill(db: Database, r: Report, moneyFails: bool)
      modifies this`quota, db`balance
      ensures quota == BilledQuota(old(quota), r, moneyFails)
      ensures db.balance == old(db.balance) - (quota - old(quota))
    {
      if Rebills(r) {
        var actualQuota := ActualQuota(r);
        var quotaDelta := actualQuota - quota;
        if quotaDelta > 0 {
          var ok := db.DecreaseUserQuota(quotaDelta, moneyFails);
          if ok {
            quota := actualQuota;
          }
        } else if quotaDelta < 0 {
          var ok := db.IncreaseUserQuota(-quotaDelta, moneyFails);
          if ok {
            quota := actualQuota;
          }
        }
      }
    }

    /** The poll of one task just fetched from the database. */
    method UpdateSingle(db: Database, report: Report, faults: Faults) returns (ok: bool)
      requires db.row == Row(status, progress, quota)
      modifies this, db
      ensures State(db.row, db.balance) == Step(State(old(db.row), old(db.balance)), Poll(report, faults))
      ensures ok <==> Known(Normalize(report).status)
    {
      var r := report;
      if r.status == "" {
        r := Report(FAILURE, "", 0, Unpriced);
      }
      var shouldRefund := false;
      var preConsumed, preStatus := quota, status;
      status := r.status;
      if !Known(r.status) {
        return false;
      }
      progress := DefaultProgress(r.status);
      if r.status == SUCCESS {
        Rebill(db, r, faults.money);
      } else if r.status == FAILURE {
        r := r.(progress := COMPLETE);
        shouldRefund := preConsumed != 0 && preStatus != FAILURE;
      }
      if r.progress != "" {
        progress := r.progress;
      }
      if faults.save {
        shouldRefund := false;
      } else {
        db.row := Row(status, progress, quota);
      }
      if shouldRefund {
        var _ := db.IncreaseUserQuota(preConsumed, faults.refund);
      }
      return true;
    }
  }

  // ---------- what one poll stores ----------

  ghost predicate TowardZero(x: real, n: int) {
    if x < 0.0 then n as real - 1.0 < x <= n as real else n as real <= x < n as real + 1.0
  }

  lemma TruncateIsTowardZero(x: real)
    ensures TowardZero(x, Truncate(x))
  {
  }

  /** The report re-bills: a success with tokens and a positive model ratio. */
  ghost predicate Metered(r: Report) {
    r.status == "SUCCESS" && r.tokens > 0 && r.pricing.Priced? && r.pricing.modelRatio > 0.0
  }

  function ShownProgress(status: string, progress: string): string {
    if status == "FAILURE" then "100%"
    else if progress != "" then progress
    else if status == "SUBMITTED" then "10%"
    else if status == "QUEUED" then "20%"
    else if status == "IN_PROGRESS" then "30%"
    else "100%"
  }

  /** What a poll stores and what it takes. A missing status is a failure, an unknown one
      is ignored. A re-billing takes the difference to tokens times ratios, stored or not;
      a stored new failure gives a positive quota back; nothing else moves money. */
  lemma PollStores(s: State, p: Poll)
    ensures var r, f, s' := p.report, p.faults, Step(s, p);
            var status := if r.status == "" then "FAILURE" else r.status;
            var known := status in {"SUBMITTED", "QUEUED", "IN_PROGRESS", "SUCCESS", "FAILURE"};
            && (!known ==> s' == s)
            && (f.save ==> s'.row == s.row)
            && (known && !f.save ==> s'.row.status == status && s'.row.progress == ShownProgress(status, r.progress))
            && (Metered(r) && !f.money ==>
                  && TowardZero(r.tokens as real * r.pricing.modelRatio * r.pricing.groupRatio, s.row.quota + s.balance - s'.balance)
                  && (!f.save ==> s'.row.quota == s.row.quota + s.balance - s'.balance))
            && (!(Metered(r) && !f.money) ==>
                  && s'.row.quota == s.row.quota
                  && s'.balance == s.balance + if status == "FAILURE" && s.row.status != "FAILURE" && s.row.quota > 0 && !f.save && !f.refund
                                               then s.row.quota else 0)
  {
    var r := p.report;
    if Metered(r) {
      TruncateIsTowardZero(r.tokens as real * r.pricing.modelRatio * r.pricing.groupRatio);
    }
  }

  // ---------- the ledger ----------

  /** The user has paid exactly what the stored task says: its quota, or nothing
      once it has failed. `funds` is what the user would have without the task. */
  predicate Settled(s: State, funds: int) {
    s.balance == funds - if s.row.status == FAILURE then 0 else s.row.quota
  }

  /** The poll moved money for a re-billing it then failed to store. */
  predicate LosesRebilling(row: Row, p: Poll) {
    Rebills(p.report) && ActualQuota(p.report) != row.quota && !p.faults.money && p.faults.save
  }

  /** The poll stored a failure whose refund did not go through. */
  predicate LosesRefund(row: Row, p: Poll) {
    Normalize(p.report).status == FAILURE && row.quota != 0 && !p.faults.save && (p.faults.refund || row.quota < 0)
  }

  predicate Loses(row: Row, p: Poll) {
    Open(row) && (LosesRebilling(row, p) || LosesRefund(row, p))
  }

  /** A poll leaves the ledger settled exactly when it loses neither write; a
      supplementary charge or partial return that fails midway does no harm. */
  lemma PollIsExact(s: State, p: Poll, funds: int)
    requires Settled(s, funds)
    ensures Settled(Next(s, p), funds) <==> !Loses(s.row, p)
  {
    if Open(s.row) {
      var r := Normalize(p.report);
      assert Rebills(r) <==> Rebills(p.report);
      assert r.status != SUCCESS ==> BilledQuota(s.row.quota, r, p.faults.money) == s.row.quota;
    }
  }

  predicate AlwaysSettled(s: State, polls: seq<Poll>, funds: int)
    decreases polls
  {
    Settled(s, funds) && (polls != [] ==> AlwaysSettled(Next(s, polls[0]), polls[1..], funds))
  }

  predicate NeverLoses(s: State, polls: seq<Poll>)
    decreases polls
  {
    polls != [] ==> !Loses(s.row, polls[0]) && NeverLoses(Next(s, polls[0]), polls[1..])
  }

  /** The ledger is settled after every poll of a run exactly when no poll loses a write. */
  lemma {:induction false} RunIsExact(s: State, polls: seq<Poll>, funds: int)
    requires Settled(s, funds)
    ensures AlwaysSettled(s, polls, funds) <==> NeverLoses(s, polls)
    ensures NeverLoses(s, polls) ==> Settled(Run(s, polls), funds)
    decreases polls
  {
    if polls != [] {
      PollIsExact(s, polls[0], funds);
      if !Loses(s.row, polls[0]) {
        RunIsExact(Next(s, polls[0]), polls[1..], funds);
      }
    }
  }

  /** While a task is open its stored quota is the pre-consumed one. */
  lemma OpenKeepsQuota(s: State, p: Poll)
    requires Open(Next(s, p).row)
    ensures Next(s, p).row.quota == s.row.quota
  {
  }

  /** Saves and refunds go through; charges may fail. */
  predicate Reliable(polls: seq<Poll>) {
    forall i :: 0 <= i < |polls| ==> !polls[i].faults.save && !polls[i].faults.refund
  }

  lemma {:induction false} ReliableRunNeverLoses(s: State, polls: seq<Poll>)
    requires Open(s.row) ==> s.row.quota >= 0
    requires Reliable(polls)
    ensures NeverLoses(s, polls)
    decreases polls
  {
    if polls != [] {
      if Open(Next(s, polls[0]).row) {
        OpenKeepsQuota(s, polls[0]);
      }
      assert forall i :: 0 <= i < |polls[1..]| ==> polls[1..][i] == polls[i + 1];
      ReliableRunNeverLoses(Next(s, polls[0]), polls[1..]);
    }
  }

  /** Whatever the upstream reports and whichever charges fail, as long as saves
      and refunds go through the user has paid the stored quota, and nothing after
      a failure. */
  lemma ChargeFollowsTask(row: Row, funds: int, polls: seq<Poll>)
    requires Open(row) && row.quota >= 0 && Reliable(polls)
    ensures AlwaysSettled(State(row, funds - row.quota), polls, funds)
    ensures Settled(Run(State(row, funds - row.quota), polls), funds)
  {
    var s := State(row, funds - row.quota);
    ReliableRunNeverLoses(s, polls);
    RunIsExact(s, polls, funds);
  }

  /** A finished task is never touched again, whatever is reported later. */
  lemma {:induction false} FinishedStays(s: State, polls: seq<Poll>)
    requires !Open(s.row)
    ensures Run(s, polls) == s
    decreases polls
  {
    if polls != [] {
      FinishedStays(s, polls[1..]);
    }
  }

  /** A success that goes through bills the whole part of tokens times ratios, and
      no later poll changes that. */
  lemma SuccessBillsTokens(s: State, p: Poll, later: seq<Poll>)
    requires Open(s.row) && p.report.status == SUCCESS && p.report.tokens > 0 && p.report.pricing.Priced?
    requires p.report.pricing.modelRatio > 0.0 && p.report.pricing.groupRatio >= 0.0 && !p.faults.money && !p.faults.save
    ensures var price := p.report.tokens as real * p.report.pricing.modelRatio * p.report.pricing.groupRatio;
            var s' := Run(s, [p] + later);
            && s'.row.status == SUCCESS && s'.row.quota as real <= price < s'.row.quota as real + 1.0
            && s'.balance - s.balance == s.row.quota - s'.row.quota
  {
    assert ([p] + later)[1..] == later;
    FinishedStays(Next(s, p), later);
    PriceIsNotNegative(p.report.tokens as real, p.report.pricing.modelRatio, p.report.pricing.groupRatio);
  }

  lemma PriceIsNotNegative(tokens: real, modelRatio: real, groupRatio: real)
    requires tokens >= 0.0 && modelRatio >= 0.0 && groupRatio >= 0.0
    ensures tokens * modelRatio * groupRatio >= 0.0
  {
    assert tokens * modelRatio >= 0.0;
  }

  /** A success that cannot be stored is billed again by every poll. */
  lemma {:induction false} UnsavedSuccessBillsEveryTime(s: State, p: Poll, n: nat)
    requires Open(s.row) && Rebills(p.report) && !p.faults.money && p.faults.save
    ensures Run(s, seq(n, _ => p)) == State(s.row, s.balance - n * (ActualQuota(p.report) - s.row.quota))
    decreases n
  {
    if n > 0 {
      var s' := Next(s, p);
      assert s' == State(s.row, s.balance - (ActualQuota(p.report) - s.row.quota));
      assert seq(n, _ => p)[1..] == seq(n - 1, _ => p);
      UnsavedSuccessBillsEveryTime(s', p, n - 1);
    }
  }
}
