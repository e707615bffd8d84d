/** Refunding failed Midjourney tasks. Any number of pollers fetch the unfinished
    task, ask the upstream, and write back with a compare-and-set on the status
    they fetched; whoever wins with a failure refunds the quota. */
module Midjourney {
  import opened Common

  type PollerId = nat

  /** A stored task. `applied` is set once a response has been written to it, and
      `details` stands for the other fields that are compared with a response. */
  datatype Row = Row(status: string, progress: string, applied: bool, failReason: string, details: string)

  const FAILURE := "FAILURE"
  const COMPLETE := "100%"
  const TIMEOUT := "upstream task timed out"

  datatype Response = Response(status: string, progress: string, failReason: string, details: string)

  /** A poller's copy of the task and the last response applied to it. */
  datatype Copy = Copy(row: Row, answered: Option<Response>)

  datatype State = State(row: Row, quota: int, refunds: nat, copies: map<PollerId, Copy>)

  datatype Move =
    | Fetch(poller: PollerId)
    | Respond(poller: PollerId, response: Response, timedOut: bool, dbFails: bool)
    | ChannelGone  // bulk update of the tasks of a missing channel

  /** A task unfinished for an hour counts as failed whatever the upstream says. */
  function Effective(local: Row, r: Response, timedOut: bool): Response {
    if timedOut && local.progress != COMPLETE then r.(failReason := TIMEOUT, status := FAILURE) else r
  }

  predicate NeedsUpdate(local: Row, r: Response) {
    !local.applied || local.progress != r.progress || local.status != r.status || local.failReason != r.failReason
    || local.details != r.details || (local.progress != COMPLETE && r.failReason != "")
  }

  predicate MeetsRefundCondition(r: Response) {
    (r.progress != COMPLETE && r.failReason != "") || (r.progress == COMPLETE && r.status == FAILURE)
  }

  function NewRow(r: Response): Row {
    Row(r.status, if MeetsRefundCondition(r) then COMPLETE else r.progress, true, r.failReason, r.details)
  }

  /** The effect of one response on the stored row, the refunds and the copy. */
  function Answer(row: Row, quota: int, refunds: nat, local: Row, response: Response, timedOut: bool, dbFails: bool)
    : (Row, nat, Row)
  {
    var r := Effective(local, response, timedOut);
    if !NeedsUpdate(local, r) then (row, refunds, local)
    else
      var won := !dbFails && row.status == local.status;
      (if won then NewRow(r) else row, if won && MeetsRefundCondition(r) && quota != 0 then refunds + 1 else refunds, NewRow(r))
  }

  /** What one answer does, with an overdue task counted as failed. An answer that repeats
      the copy is ignored, unless it gives a reason for the failure of an unfinished task.
      Otherwise the copy takes its fields over, and so does the stored row if the write
      wins. A reason before the end, or a failure at the end, finishes the task, and the
      winner refunds it if it cost anything. */
  lemma AnswerIsApplied(row: Row, quota: int, refunds: nat, local: Row, response: Response, timedOut: bool, dbFails: bool)
    ensures var overdue := timedOut && local.progress != "100%";
            var status := if overdue then "FAILURE" else response.status;
            var reason := if overdue then "upstream task timed out" else response.failReason;
            var failed := if response.progress == "100%" then status == "FAILURE" else reason != "";
            var taken := Row(status, if failed then "100%" else response.progress, true, reason, response.details);
            var won := row.status == local.status && !dbFails;
            Answer(row, quota, refunds, local, response, timedOut, dbFails) ==
            if local == Row(status, response.progress, true, reason, response.details) && (response.progress == "100%" || reason == "")
            then (row, refunds, local)
            else (if won then taken else row, refunds + (if won && failed && quota != 0 then 1 else 0), taken)
  {
  }

  function Apply(s: State, m: Move): State {
    match m
    case Fetch(p) =>
      if s.row.progress == COMPLETE then s else s.(copies := s.copies[p := Copy(s.row, None)])
    case Respond(p, response, timedOut, dbFails) =>
      if p !in s.copies then s
      else
        var (row, refunds, local) := Answer(s.row, s.quota, s.refunds, s.copies[p].row, response, timedOut, dbFails);
        State(row, s.quota, refunds, s.copies[p := Copy(local, Some(response))])
    case ChannelGone => s.(row := s.row.(status := FAILURE, progress := COMPLETE, failReason := "channel not found"))
  }

  /** A missing channel fails the task without a refund, and no poller fetches it again. */
  lemma MissingChannelFails(s: State, p: PollerId)
    ensures var s' := Apply(s, ChannelGone);
            && (s'.row.status, s'.row.progress, s'.row.failReason) == ("FAILURE", "100%", "channel not found")
            && (s'.row.applied, s'.row.details) == (s.row.applied, s.row.details)
            && s'.refunds == s.refunds && s'.copies == s.copies && s'.quota == s.quota
            && Apply(s', Fetch(p)) == s'
  {
  }

  function Run(s: State, moves: seq<Move>): State
    decreases moves
  {
    if moves == [] then s else Run(Apply(s, moves[0]), moves[1..])
  }

  // ---------- the response loop as it is written ----------

  /** The stored task and the refunds granted for it. */
  class Database {
    var row: Row
    const quota: int
    var refunds: nat

    constructor (row: Row, quota: int)
      ensures this.row == row && this.quota == quota && refunds == 0
    {
      this.row, this.quota, refunds := row, quota, 0;
    }

    method UpdateWithStatus(from: string, to: Row, fails: bool) returns (won: bool)
      modifies this`row
      ensures won <==> !fails && old(row).status == from
      ensures row == if won then to else old(row)
    {
      won := !fails && row.status == from;
      if won {
        row := to;
      }
    }

    method Increase()
      modifies this`refunds
      ensures refunds == old(refunds) + 1
    {
      refunds := refunds + 1;
    }
  }

  /** A poller's copy, overwritten field by field. */
  class Task {
    var status: string
    var progress: string
    var applied: bool
    var failReason: string
    var details: string

    constructor (row: Row)
      ensures ToRow() == row
    {
      status, progress, applied, failReason, details := row.status, row.progress, row.applied, row.failReason, row.details;
    }

    function ToRow(): Row
      reads this
    {
      Row(status, progress, applied, failReason, details)
    }

    method HandleResponse(db: Database, response: Response, timedOut: bool, dbFails: bool)
      modifies this, db
      ensures (db.row, db.refunds, ToRow()) ==
              Answer(old(db.row), db.quota, old(db.refunds), old(ToRow()), response, timedOut, dbFails)
    {
      var item := response;
      if timedOut && progress != COMPLETE {
        item := item.(failReason := TIMEOUT, status := FAILURE);
      }
      if !NeedsUpdate(ToRow(), item) {
        return;
      }
      var preStatus := status;
      applied := true;
      progress := item.progress;
      details := item.details;
      status := item.status;
      failReason := item.failReason;
      var shouldReturnQuota := false;
      if (progress != COMPLETE && item.failReason != "") || (progress == COMPLETE && status == FAILURE) {
        progress := COMPLETE;
        shouldReturnQuota := db.quota != 0;
      }
      var won := db.UpdateWithStatus(preStatus, ToRow(), dbFails);
      if won && shouldReturnQuota {
        db.Increase();
      }
    }
  }

  // ---------- which runs are considered ----------

  function Start(row: Row, quota: int): State {
    State(row, quota, 0, map[])
  }

  /** How often one fetched copy may be answered: once, again by the same item, or
      by any items. */
  datatype Repeats = Once | Same | Any

  /** What the upstream can answer, whether tasks can time out, and how often it
      lists a task. */
  datatype Rules = Rules(allowed: iset<Response>, timeouts: bool, repeats: Repeats)

  ghost predicate Orderly(s: State, m: Move, rules: Rules) {
    m.Respond? ==>
      && m.response in rules.allowed && (m.timedOut ==> rules.timeouts)
      && (m.poller in s.copies ==>
            var answered := s.copies[m.poller].answered;
            answered.None? || rules.repeats.Any? || (rules.repeats.Same? && answered.value == m.response))
  }

  ghost predicate OrderlyRun(s: State, moves: seq<Move>, rules: Rules)
    decreases moves
  {
    moves != [] ==> Orderly(s, moves[0], rules) && OrderlyRun(Apply(s, moves[0]), moves[1..], rules)
  }

  /** In all interleavings, from any unfailed task, at most one refund. */
  ghost predicate RefundsOnce(rules: Rules) {
    forall row: Row, quota: int, moves: seq<Move> ::
      row.status != FAILURE && OrderlyRun(Start(row, quota), moves, rules) ==> Run(Start(row, quota), moves).refunds <= 1
  }

  // ---------- when a task is refunded at most once ----------

  /** The upstream says failure exactly when the refund condition is met. */
  predicate Faithful(r: Response) {
    r.status == FAILURE <==> MeetsRefundCondition(r)
  }

  ghost predicate AllFaithful(allowed: iset<Response>) {
    forall r :: r in allowed ==> Faithful(r)
  }

  ghost predicate RowInv(row: Row, refunds: nat) {
    && refunds <= 1 && (refunds == 1 ==> row.status == FAILURE)
    && (row.status == FAILURE ==> row.progress == COMPLETE)
  }

  ghost predicate Inv(s: State) {
    RowInv(s.row, s.refunds) && forall p :: p in s.copies && s.copies[p].answered.None? ==> s.copies[p].row.status != FAILURE
  }

  lemma AnswerKeeps(row: Row, quota: int, refunds: nat, local: Row, r: Response, timedOut: bool, dbFails: bool)
    requires local.status != FAILURE && Faithful(r) && RowInv(row, refunds)
    ensures var (row', refunds', _) := Answer(row, quota, refunds, local, r, timedOut, dbFails); RowInv(row', refunds')
  {
    assert Faithful(Effective(local, r, timedOut));
  }

  lemma StepKeeps(s: State, m: Move, rules: Rules)
    requires Inv(s) && rules.repeats.Once? && Orderly(s, m, rules) && AllFaithful(rules.allowed)
    ensures Inv(Apply(s, m))
  {
    if m.Respond? && m.poller in s.copies {
      AnswerKeeps(s.row, s.quota, s.refunds, s.copies[m.poller].row, m.response, m.timedOut, m.dbFails);
    }
  }

  /** Every state of every interleaving of any number of pollers: a refund has
      happened at most once, and only if the stored task is a finished failure. */
  lemma {:induction false} RunKeeps(s: State, moves: seq<Move>, rules: Rules)
    requires Inv(s) && rules.repeats.Once? && OrderlyRun(s, moves, rules) && AllFaithful(rules.allowed)
    ensures Inv(Run(s, moves))
    decreases moves
  {
    if moves != [] {
      StepKeeps(s, moves[0], rules);
      RunKeeps(Apply(s, moves[0]), moves[1..], rules);
    }
  }

  // ---------- runs that refund twice ----------

  lemma Unfold(s: State, m: Move, rest: seq<Move>, rules: Rules)
    ensures Run(s, [m] + rest) == Run(Apply(s, m), rest)
    ensures OrderlyRun(s, [m] + rest, rules) <==> Orderly(s, m, rules) && OrderlyRun(Apply(s, m), rest, rules)
  {
    assert ([m] + rest)[1..] == rest;
  }

  /** Two pollers that hold the task in its stored status both win with a response
      that meets the refund condition and does not change that status. */
  lemma BothWin(s: State, r: Response, timedOut: bool, rules: Rules) returns (moves: seq<Move>)
    requires s.row.progress != COMPLETE && s.quota != 0 && r in rules.allowed && (timedOut ==> rules.timeouts)
    requires var e := Effective(s.row, r, timedOut);
             MeetsRefundCondition(e) && e.status == s.row.status && NeedsUpdate(s.row, e)
    ensures OrderlyRun(s, moves, rules) && Run(s, moves).refunds == s.refunds + 2
  {
    var m0, m1 := Respond(0, r, timedOut, false), Respond(1, r, timedOut, false);
    var s1 := Apply(s, Fetch(0));
    var s2 := Apply(s1, Fetch(1));
    var s3 := Apply(s2, m0);
    assert s3.row.status == s.row.status && s3.refunds == s.refunds + 1 && s3.copies[1] == Copy(s.row, None);
    Unfold(s3, m1, [], rules);
    Unfold(s2, m0, [m1] + [], rules);
    Unfold(s1, Fetch(1), [m0] + ([m1] + []), rules);
    Unfold(s, Fetch(0), [Fetch(1)] + ([m0] + ([m1] + [])), rules);
    moves := [Fetch(0)] + ([Fetch(1)] + ([m0] + ([m1] + [])));
  }

  /** A run that breaks the promise. */
  ghost predicate RefundsTwice(row: Row, moves: seq<Move>, rules: Rules) {
    row.status != FAILURE && OrderlyRun(Start(row, 1), moves, rules) && Run(Start(row, 1), moves).refunds >= 2
  }

  const UNTOUCHED := Row("", "0%", false, "", "")

  /** A single poller, alone with the task: its copy is the stored row. */
  predicate Alone(s: State) {
    0 in s.copies && s.copies[0].row == s.row
  }

  lemma Solo(s: State, r: Response, timedOut: bool)
    requires Alone(s)
    ensures var s' := Apply(s, Respond(0, r, timedOut, false));
            var e := Effective(s.row, r, timedOut);
            && Alone(s') && s'.quota == s.quota && s'.copies[0].answered == Some(r)
            && s'.row == (if NeedsUpdate(s.row, e) then NewRow(e) else s.row)
            && s'.refunds == s.refunds + (if NeedsUpdate(s.row, e) && MeetsRefundCondition(e) && s.quota != 0 then 1 else 0)
  {
  }

  /** Three responses in turn to one copy of an untouched task. */
  lemma SoloRun(a: Move, b: Move, c: Move, rules: Rules) returns (moves: seq<Move>)
    requires a.Respond? && b.Respond? && c.Respond? && a.poller == b.poller == c.poller == 0
    requires forall m :: m in [a, b, c] ==> m.response in rules.allowed && (m.timedOut ==> rules.timeouts)
    requires rules.repeats.Any? || (rules.repeats.Same? && a.response == b.response == c.response)
    ensures var s := Apply(Start(UNTOUCHED, 1), Fetch(0));
            && OrderlyRun(Start(UNTOUCHED, 1), moves, rules)
            && Run(Start(UNTOUCHED, 1), moves) == Apply(Apply(Apply(s, a), b), c)
  {
    assert a in [a, b, c] && b in [a, b, c] && c in [a, b, c];
    var s := Apply(Start(UNTOUCHED, 1), Fetch(0));
    Unfold(Apply(Apply(s, a), b), c, [], rules);
    Unfold(Apply(s, a), b, [c] + [], rules);
    Unfold(s, a, [b] + ([c] + []), rules);
    Unfold(Start(UNTOUCHED, 1), Fetch(0), [a] + ([b] + ([c] + [])), rules);
    moves := [Fetch(0)] + ([a] + ([b] + ([c] + [])));
  }

  /** An unfaithful response refunds some task twice. Without the failure status
      the second compare-and-set succeeds too. Without the refund the task stays
      fetchable in its failure status until it times out. */
  lemma UnfaithfulRefundsTwice(r: Response, rules: Rules) returns (row: Row, moves: seq<Move>)
    requires r in rules.allowed && !Faithful(r) && (rules.timeouts || r.status != FAILURE)
    ensures RefundsTwice(row, moves, rules)
  {
    if r.status != FAILURE {
      row := Row(r.status, "0%", false, "", "");
      moves := BothWin(Start(row, 1), r, false, rules);
    } else {
      row := UNTOUCHED;
      var m := Respond(0, r, false, false);
      var s1 := Apply(Start(row, 1), Fetch(0));
      var s2 := Apply(s1, m);
      assert s2.row == Row(FAILURE, r.progress, true, "", r.details) && s2.refunds == 0;
      var twice := BothWin(s2, r, true, rules);
      moves := [Fetch(0)] + ([m] + twice);
      Unfold(s1, m, twice, rules);
      Unfold(Start(row, 1), Fetch(0), [m] + twice, rules);
    }
  }

  // ---------- answers that repeat ----------

  /** Once this has been written to a copy, hearing it again changes nothing. */
  predicate Stable(r: Response) {
    Faithful(r) && (r.status == FAILURE ==> r.progress == COMPLETE)
  }

  /** This is what a timeout would make of it. */
  predicate Lapsed(r: Response) {
    r.status == FAILURE && r.progress == COMPLETE && r.failReason == TIMEOUT
  }

  ghost predicate StableRules(rules: Rules) {
    && (forall r :: r in rules.allowed ==> Stable(r) && (rules.timeouts ==> Lapsed(r)))
    && (rules.repeats.Any? ==> forall q, r :: q in rules.allowed && r in rules.allowed ==> q == r)
  }

  ghost predicate CopyInv(c: Copy, rules: Rules) {
    if c.answered.None? then c.row.status != FAILURE
    else c.answered.value in rules.allowed && c.row == NewRow(c.answered.value)
  }

  ghost predicate RepeatInv(s: State, rules: Rules) {
    RowInv(s.row, s.refunds) && forall p :: p in s.copies ==> CopyInv(s.copies[p], rules)
  }

  lemma RepeatedAnswer(s: State, m: Move, rules: Rules)
    requires m.Respond? && m.poller in s.copies && Orderly(s, m, rules) && StableRules(rules) && RepeatInv(s, rules)
    ensures var (row, refunds, local) := Answer(s.row, s.quota, s.refunds, s.copies[m.poller].row, m.response, m.timedOut, m.dbFails);
            RowInv(row, refunds) && local == NewRow(m.response)
  {
    assert CopyInv(s.copies[m.poller], rules);
    assert Effective(s.copies[m.poller].row, m.response, m.timedOut) == m.response;
  }

  lemma {:induction false} RepeatsKeep(s: State, moves: seq<Move>, rules: Rules)
    requires RepeatInv(s, rules) && OrderlyRun(s, moves, rules) && StableRules(rules)
    ensures Run(s, moves).refunds <= 1
    decreases moves
  {
    if moves != [] {
      if moves[0].Respond? && moves[0].poller in s.copies {
        RepeatedAnswer(s, moves[0], rules);
      }
      RepeatsKeep(Apply(s, moves[0]), moves[1..], rules);
    }
  }

  /** Nothing the upstream says calls for a refund, and nothing times out. */
  ghost predicate NothingToRefund(rules: Rules) {
    !rules.timeouts && forall r :: r in rules.allowed ==> !MeetsRefundCondition(r)
  }

  lemma {:induction false} NoRefunds(s: State, moves: seq<Move>, rules: Rules)
    requires s.refunds == 0 && OrderlyRun(s, moves, rules) && NothingToRefund(rules)
    ensures Run(s, moves).refunds == 0
    decreases moves
  {
    if moves != [] {
      assert Orderly(s, moves[0], rules);
      NoRefunds(Apply(s, moves[0]), moves[1..], rules);
    }
  }

  /** A failure that is not complete is written as complete, so the very same item
      counts as new and is refunded each time. */
  lemma SameItemRefundsTwice(r: Response, rules: Rules) returns (moves: seq<Move>)
    requires r in rules.allowed && !rules.repeats.Once? && r.status == FAILURE && r.progress != COMPLETE && r.failReason != ""
    ensures RefundsTwice(UNTOUCHED, moves, rules)
  {
    var m := Respond(0, r, false, false);
    moves := SoloRun(m, m, m, rules);
    var s0 := Apply(Start(UNTOUCHED, 1), Fetch(0));
    Solo(s0, r, false);
    Solo(Apply(s0, m), r, false);
    Solo(Apply(Apply(s0, m), m), r, false);
  }

  /** A task that times out is finished as a failure; the same item, heard again,
      no longer counts as timed out and so differs from what was written. */
  lemma TimeoutRefundsTwice(r: Response, rules: Rules) returns (row: Row, moves: seq<Move>)
    requires r in rules.allowed && !rules.repeats.Once? && rules.timeouts && Stable(r) && !Lapsed(r)
    ensures RefundsTwice(row, moves, rules)
  {
    var late, plain := Respond(0, r, true, false), Respond(0, r, false, false);
    if r.status == FAILURE {
      row := UNTOUCHED;
      moves := SoloRun(late, plain, plain, rules);
      var s0 := Apply(Start(row, 1), Fetch(0));
      Solo(s0, r, true);
      Solo(Apply(s0, late), r, false);
      Solo(Apply(Apply(s0, late), plain), r, false);
    } else {
      row := Row(r.status, "0%", false, "", "");
      var other := Respond(1, r, true, false);
      var s1 := Apply(Start(row, 1), Fetch(0));
      var s2 := Apply(s1, Fetch(1));
      Solo(s2, r, true);
      var s3 := Apply(s2, late);
      Solo(s3, r, false);
      var s4 := Apply(s3, plain);
      assert s4.row.status == row.status && s4.copies[1] == Copy(row, None) && s4.refunds == 1;
      Unfold(s4, other, [], rules);
      Unfold(s3, plain, [other] + [], rules);
      Unfold(s2, late, [plain] + ([other] + []), rules);
      Unfold(s1, Fetch(1), [late] + ([plain] + ([other] + [])), rules);
      Unfold(Start(row, 1), Fetch(0), [Fetch(1)] + ([late] + ([plain] + ([other] + []))), rules);
      moves := [Fetch(0)] + ([Fetch(1)] + ([late] + ([plain] + ([other] + []))));
    }
  }

  /** Two items for one copy, one of them a failure, refund twice. */
  lemma TwoItemsRefundTwice(f: Response, r: Response, rules: Rules) returns (moves: seq<Move>)
    requires f in rules.allowed && r in rules.allowed && f != r && rules.repeats.Any?
    requires Stable(f) && f.status == FAILURE && Stable(r)
    ensures RefundsTwice(UNTOUCHED, moves, rules)
  {
    var m, n := Respond(0, f, false, false), Respond(0, r, false, false);
    moves := SoloRun(m, n, m, rules);
    var s0 := Apply(Start(UNTOUCHED, 1), Fetch(0));
    Solo(s0, f, false);
    Solo(Apply(s0, m), r, false);
    Solo(Apply(Apply(s0, m), n), f, false);
  }

  /** A failure that calls for no refund leaves the task open in the failure status;
      then two pollers win with one that does. */
  lemma OpenFailureRefundsTwice(u: Response, f: Response, rules: Rules) returns (moves: seq<Move>)
    requires u in rules.allowed && f in rules.allowed
    requires u.status == FAILURE && !Faithful(u) && f.status == FAILURE && MeetsRefundCondition(f)
    ensures RefundsTwice(UNTOUCHED, moves, rules)
  {
    var m := Respond(0, u, false, false);
    var s1 := Apply(Start(UNTOUCHED, 1), Fetch(0));
    var s2 := Apply(s1, m);
    assert s2.row == Row(FAILURE, u.progress, true, "", u.details) && s2.refunds == 0;
    var twice := BothWin(s2, f, false, rules);
    moves := [Fetch(0)] + ([m] + twice);
    Unfold(s1, m, twice, rules);
    Unfold(Start(UNTOUCHED, 1), Fetch(0), [m] + twice, rules);
  }

  // ---------- the exact condition ----------

  /** Either nothing calls for a refund; or failures and refund conditions coincide
      and, where a copy can be answered again, hearing an item again is harmless. */
  ghost predicate Sound(rules: Rules) {
    NothingToRefund(rules) || (AllFaithful(rules.allowed) && (rules.repeats.Once? || StableRules(rules)))
  }

  lemma UnsoundRefundsTwice(rules: Rules) returns (row: Row, moves: seq<Move>)
    requires !Sound(rules)
    ensures RefundsTwice(row, moves, rules)
  {
    row := UNTOUCHED;
    if !AllFaithful(rules.allowed) {
      var u :| u in rules.allowed && !Faithful(u);
      if rules.timeouts || u.status != FAILURE {
        row, moves := UnfaithfulRefundsTwice(u, rules);
      } else {
        var f :| f in rules.allowed && MeetsRefundCondition(f);
        if f.status != FAILURE {
          row, moves := UnfaithfulRefundsTwice(f, rules);
        } else {
          moves := OpenFailureRefundsTwice(u, f, rules);
        }
      }
    } else if r :| r in rules.allowed && !Stable(r) {
      moves := SameItemRefundsTwice(r, rules);
    } else if r :| rules.timeouts && r in rules.allowed && !Lapsed(r) {
      row, moves := TimeoutRefundsTwice(r, rules);
    } else {
      var q, r :| q in rules.allowed && r in rules.allowed && q != r;
      var f :| f in rules.allowed && f.status == FAILURE;
      moves := TwoItemsRefundTwice(f, if q == f then r else q, rules);
    }
  }

  /** Over every interleaving of any number of pollers a task is refunded at most
      once exactly when the rules are sound. Answered once per fetch, that is: the
      upstream says failure if and only if it meets the refund condition. */
  lemma RefundedAtMostOnce(rules: Rules)
    ensures RefundsOnce(rules) <==> Sound(rules)
  {
    if Sound(rules) {
      forall row: Row, quota: int, moves: seq<Move> | row.status != FAILURE && OrderlyRun(Start(row, quota), moves, rules)
        ensures Run(Start(row, quota), moves).refunds <= 1
      {
        if NothingToRefund(rules) {
          NoRefunds(Start(row, quota), moves, rules);
        } else if rules.repeats.Once? {
          RunKeeps(Start(row, quota), moves, rules);
        } else {
          RepeatsKeep(Start(row, quota), moves, rules);
        }
      }
    } else {
      var row, moves := UnsoundRefundsTwice(rules);
      assert Run(Start(row, 1), moves).refunds >= 2;
    }
  }
}
