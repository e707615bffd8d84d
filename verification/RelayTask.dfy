/** The retry loop that submits an asynchronous task. It shares channel selection
    and bookkeeping with the request relay; its own business is that the billing
    session is opened by whichever turn first gets that far, and that the task is
    then either settled and stored or refunded. */
module RelayTask {
  import opened Billing
  import opened Common
  import opened Relay
  import TaskPolling

  /** Local errors come from this process, the others from the upstream. */
  datatype TaskError = TaskError(status: int, local: bool)

  const UNAVAILABLE_TASK := TaskError(503, true)

  datatype Answer = Accepted(settlement: Settlement) | Rejected(error: TaskError)

  /** How a submission goes: it fails before billing, or gets there. Then it opens
      the session unless there is one or the model is free, and only then does the
      upstream answer. */
  datatype Submission =
    | Early(error: TaskError)
    | Reached(opening: Option<seq<Try>>, openError: TaskError, answer: Answer)

  /** The outside world in one turn: the request turn's selection, setup and body,
      and the submission. */
  datatype TaskTurn = TaskTurn(base: Turn, submission: Submission)

  datatype TaskConfig = TaskConfig(base: Config, locked: Option<int>, alwaysSkipStatus: int -> bool, insertFails: bool)

  function Deliver(b: Bill, playground: bool, sub: Submission): (Bill, Answer) {
    match sub
    case Early(e) => (b, Rejected(e))
    case Reached(opening, openError, answer) =>
      var b1 := if opening.None? then b else OpenBill(b, playground, opening.value);
      (b1, if opening.Some? && b1.session.None? then Rejected(openError) else answer)
  }

  predicate IsTaskAuthError(e: TaskError) {
    e.status == 401 || e.status == 403
  }

  /** Integer division by a hundred, toward zero. */
  function Hundreds(status: int): int {
    if status >= 0 then status / 100 else -((-status) / 100)
  }

  predicate ShouldRetryTask(cfg: TaskConfig, t: TaskTurn, e: TaskError, retriesLeft: int) {
    if t.base.affinitySkip || retriesLeft <= 0 || cfg.base.specificChannel then false
    else if e.status == 429 || e.status == 307 then true
    else if Hundreds(e.status) == 5 then !cfg.alwaysSkipStatus(e.status)
    else if e.status == 400 || e.status == 408 || e.local || Hundreds(e.status) == 2 then false
    else true
  }

  datatype TaskChoice = TaskChosen(state: State, channel: int) | TaskNotChosen(state: State)

  /** A task bound to an earlier task's channel keeps that channel, without taking
      a slot for it. (As the source stands, looking up the earlier task reads channel
      metadata that is not there yet, so such a request panics before this loop.) */
  function ChooseFor(cfg: TaskConfig, t: TaskTurn, s: State): TaskChoice {
    if cfg.locked.Some? then
      if s.retry > 0 && t.base.setupError.Some? then TaskNotChosen(s) else TaskChosen(s, cfg.locked.value)
    else
      match GetChannel(cfg.base, t.base, s)
      case Chosen(s1, channel) => TaskChosen(s1, channel)
      case NotChosen(s1, _) => TaskNotChosen(s1)
  }

  datatype TaskNext =
    | Finish(settlement: Settlement) | TryAgain(error: TaskError) | GiveUp(error: TaskError) | Abandoned(error: TaskError)

  datatype Mark = MarkOk | MarkFail | NoMark

  /** How a submission's answer is recorded and what happens next. */
  function Judge(cfg: TaskConfig, t: TaskTurn, answer: Answer, retry: int): (Mark, TaskNext) {
    match answer
    case Accepted(m) => (MarkOk, Finish(m))
    case Rejected(e) =>
      var onward := if ShouldRetryTask(cfg, t, e, cfg.base.retryTimes - retry) then TryAgain(e) else GiveUp(e);
      if e.local then (NoMark, onward)
      else if e.status == 429 then
        (NoMark, if retry >= cfg.base.rateLimitRetryTimes then GiveUp(e)
                 else if t.base.disconnected then Abandoned(e) else TryAgain(e))
      else if IsTaskAuthError(e) then (NoMark, GiveUp(e))
      else (MarkFail, onward)
  }

  function Note(b: Books, mark: Mark, channel: int): Books {
    match mark
    case MarkOk => MarkSuccess(b, channel)
    case MarkFail => MarkFailure(b, channel)
    case NoMark => b
  }

  function TaskAttempt(cfg: TaskConfig, t: TaskTurn, s: State): (State, TaskNext) {
    match ChooseFor(cfg, t, s)
    case TaskNotChosen(s1) => (s1, GiveUp(TaskError(500, true)))
    case TaskChosen(s1, channel) =>
      var b := Use(s1.books, channel);
      if t.base.body != BodyOk then
        (s1.(books := Release(b, channel, s1.meta)),
         GiveUp(TaskError(if t.base.body == BodyTooLarge then 413 else 400, true)))
      else
        var (bill, answer) := Deliver(s1.bill, cfg.base.playground, t.submission);
        var (mark, next) := Judge(cfg, t, answer, s1.retry);
        (s1.(meta := true, books := Release(Note(b, mark, channel), channel, s1.meta), bill := bill),
         next)
  }

  lemma TryAgainSpends(cfg: TaskConfig, t: TaskTurn, s: State)
    requires Ready(s) && s.retry <= cfg.base.retryTimes && TaskAttempt(cfg, t, s).1.TryAgain?
    ensures var s' := IncreaseRetry(TaskAttempt(cfg, t, s).0);
            Ready(s') && s'.retry <= cfg.base.retryTimes + 1 && 0 <= Budget(cfg.base, s') < Budget(cfg.base, s)
  {
    SelectMoves(cfg.base, t.base, s);
    var s0 := TaskAttempt(cfg, t, s).0;
    var s1 := if s.meta && cfg.locked.None? then Select(cfg.base, t.base, s).0 else s;
    assert s0.retry == s1.retry && s0.group == s1.group && s0.reset == s1.reset;
    if s1.group > s.group {
      FewerGroups(GroupCount(cfg.base), s.group, s1.group, cfg.base.retryTimes + 1);
    }
  }

  datatype TaskOutcome = Stored(settlement: Settlement) | Refused(error: TaskError) | ClientLeft(error: TaskError) | NotAttempted

  function TaskLoop(cfg: TaskConfig, script: nat -> TaskTurn, n: nat, s: State, last: Option<TaskError>)
    : (State, TaskOutcome)
    requires Ready(s)
    decreases if s.retry <= cfg.base.retryTimes then Budget(cfg.base, s) + 1 else 0
  {
    if s.retry > cfg.base.retryTimes then (s, if last.Some? then Refused(last.value) else NotAttempted)
    else
      var (s', next) := TaskAttempt(cfg, script(n), s);
      match next
      case Finish(m) => (s', Stored(m))
      case GiveUp(e) => (s', Refused(e))
      case Abandoned(e) => (s', ClientLeft(e))
      case TryAgain(e) =>
        TryAgainSpends(cfg, script(n), s);
        TaskLoop(cfg, script, n + 1, IncreaseRetry(s'), Some(e))
  }

  /** `row` is the quota of the stored task row, and `crashed` the nil dereference of
      a run that has neither error nor result. */
  datatype TaskResult = TaskResult(books: Books, outcome: TaskOutcome, bill: Bill, response: Option<TaskError>,
                                   row: Option<int>, crashed: bool)

  function ConcludeTask(cfg: TaskConfig, s: State, outcome: TaskOutcome): TaskResult {
    var refunded := RefundBill(s.bill, cfg.base.playground, cfg.base.refundFaults);
    match outcome
    case Stored(m) =>
      TaskResult(s.books, outcome, SettleBill(s.bill, cfg.base.playground, m), None,
                 if cfg.insertFails then None else Some(m.quota), false)
    case NotAttempted => TaskResult(s.books, outcome, s.bill, None, None, true)
    case ClientLeft(e) => TaskResult(s.books, outcome, refunded, None, None, false)
    case Refused(e) =>
      TaskResult(s.books, outcome, refunded, Some(if s.books.used != [] then UNAVAILABLE_TASK else e), None, false)
  }

  function StartTask(cfg: TaskConfig): State {
    Start(cfg.base)
  }

  function RunTask(cfg: TaskConfig, script: nat -> TaskTurn): TaskResult {
    var (s, outcome) := TaskLoop(cfg, script, 0, StartTask(cfg), None);
    ConcludeTask(cfg, s, outcome)
  }

  // ---------- what every turn keeps ----------

  ghost predicate Paired(b: Books) {
    b.breakerOk == b.rateOk && b.breakerFail == b.rateFail
  }

  lemma ChooseRecords(cfg: TaskConfig, t: TaskTurn, s: State)
    requires Paired(s.books)
    ensures var b := ChooseFor(cfg, t, s).state.books; Paired(b) && b.breakerOk == s.books.breakerOk
  {
    SelectKeepsBooks(cfg.base, t.base, s);
  }

  lemma MarkRecords(b: Books, mark: Mark, channel: int, selected: bool)
    requires Paired(b)
    ensures var b' := Release(Note(Use(b, channel), mark, channel), channel, selected);
            Paired(b') && |b'.breakerOk| == |b.breakerOk| + (if mark.MarkOk? then 1 else 0)
  {
  }

  lemma SubmitRecords(cfg: TaskConfig, t: TaskTurn, s: State)
    requires Paired(s.books)
    ensures var (s', next) := TaskAttempt(cfg, t, s);
            && Paired(s'.books)
            && |s'.books.breakerOk| == |s.books.breakerOk| + (if next.Finish? then 1 else 0)
  {
    ChooseRecords(cfg, t, s);
    var choice := ChooseFor(cfg, t, s);
    if choice.TaskChosen? {
      var answer := Deliver(choice.state.bill, cfg.base.playground, t.submission).1;
      MarkRecords(choice.state.books, Judge(cfg, t, answer, choice.state.retry).0, choice.channel, choice.state.meta);
      MarkRecords(choice.state.books, NoMark, choice.channel, choice.state.meta);
    }
  }

  lemma SelectKeepsBooks(cfg: Config, t: Turn, s: State)
    ensures var s' := Select(cfg, t, s).0; s'.books == s.books && s'.meta == s.meta && s'.bill == s.bill
  {
    if !cfg.groups.Plain? {
      WalkKeepsBooks(cfg, t, s, s.group, s.group);
    }
  }

  lemma {:induction false} WalkKeepsBooks(cfg: Config, t: Turn, s: State, start: nat, i: nat)
    ensures var s' := Walk(cfg, t, s, start, i).0; s'.books == s.books && s'.meta == s.meta && s'.bill == s.bill
    decreases GroupCount(cfg) - i
  {
    if i < GroupCount(cfg) && t.groupPick(i).None? {
      WalkKeepsBooks(cfg, t, s.(group := i + 1, retry := 0), start, i + 1);
    }
  }

  lemma UnlockedSlots(cfg: TaskConfig, t: TaskTurn, s: State)
    requires s.books.held.None? && cfg.locked.None?
    ensures var b, b' := s.books, TaskAttempt(cfg, t, s).0.books;
            b'.fault == b.fault && (b'.held.Some? <==> SetupFails(cfg.base, t.base, s))
    ensures SetupFails(cfg.base, t.base, s) ==> TaskAttempt(cfg, t, s).1.GiveUp?
  {
    SelectKeepsBooks(cfg.base, t.base, s);
  }

  lemma LockedSlots(cfg: TaskConfig, t: TaskTurn, s: State)
    requires s.books.held.None? && cfg.locked.Some?
    ensures var b, b' := s.books, TaskAttempt(cfg, t, s).0.books;
            b'.held.None? && (b'.fault <==> b.fault || (s.meta && ChooseFor(cfg, t, s).TaskChosen?))
  {
    SelectKeepsBooks(cfg.base, t.base, s);
  }

  /** A turn of an unlocked task handles its slot properly, keeping it only when the
      setup fails; a turn of a locked one returns a slot nobody took once the
      channel metadata is there. */
  lemma SubmitSlots(cfg: TaskConfig, t: TaskTurn, s: State)
    requires s.books.held.None?
    ensures var b, b' := s.books, TaskAttempt(cfg, t, s).0.books;
            && (cfg.locked.None? ==>
                  b'.fault == b.fault && (b'.held.Some? <==> SetupFails(cfg.base, t.base, s)))
            && (cfg.locked.Some? ==>
                  b'.held.None? && (b'.fault <==> b.fault || (s.meta && ChooseFor(cfg, t, s).TaskChosen?)))
    ensures SetupFails(cfg.base, t.base, s) && cfg.locked.None? ==> TaskAttempt(cfg, t, s).1.GiveUp?
  {
    if cfg.locked.None? {
      UnlockedSlots(cfg, t, s);
    } else {
      LockedSlots(cfg, t, s);
    }
  }

  /** The loop of an unlocked task reaches a turn whose picked channel cannot be set up. */
  predicate Reaches(cfg: TaskConfig, script: nat -> TaskTurn, n: nat, s: State)
    requires Ready(s)
    decreases if s.retry <= cfg.base.retryTimes then Budget(cfg.base, s) + 1 else 0
  {
    s.retry <= cfg.base.retryTimes &&
    if SetupFails(cfg.base, script(n).base, s) then true
    else
      TaskAttempt(cfg, script(n), s).1.TryAgain? &&
      (TryAgainSpends(cfg, script(n), s);
       var s' := TaskAttempt(cfg, script(n), s).0;
       Reaches(cfg, script, n + 1, IncreaseRetry(s')))
  }

  lemma {:induction false} TaskLoopKeeps(cfg: TaskConfig, script: nat -> TaskTurn, n: nat, s: State, last: Option<TaskError>)
    requires Ready(s) && Paired(s.books) && s.books.held.None?
    ensures var (f, outcome) := TaskLoop(cfg, script, n, s, last);
            && Paired(f.books)
            && |f.books.breakerOk| == |s.books.breakerOk| + (if outcome.Stored? then 1 else 0)
            && (outcome.NotAttempted? <==> s.retry > cfg.base.retryTimes && last.None?)
            && (cfg.locked.None? ==>
                  f.books.fault == s.books.fault && (f.books.held.Some? <==> Reaches(cfg, script, n, s)))
    decreases if s.retry <= cfg.base.retryTimes then Budget(cfg.base, s) + 1 else 0
  {
    if s.retry <= cfg.base.retryTimes {
      SubmitRecords(cfg, script(n), s);
      SubmitSlots(cfg, script(n), s);
      var (s', next) := TaskAttempt(cfg, script(n), s);
      if next.TryAgain? {
        TryAgainSpends(cfg, script(n), s);
        TaskLoopKeeps(cfg, script, n + 1, IncreaseRetry(s'), Some(next.error));
      }
    }
  }

  /** A locked task holds nothing, and has returned a slot exactly if it has used its
      channel more than once. */
  ghost predicate LockedBooks(b: Books) {
    b.held.None? && (b.fault <==> |b.used| > 1)
  }

  lemma LockedTurn(cfg: TaskConfig, t: TaskTurn, s: State)
    requires cfg.locked.Some? && LockedBooks(s.books) && (s.meta <==> s.books.used != [])
    ensures var (s', next) := TaskAttempt(cfg, t, s);
            LockedBooks(s'.books) && (next.TryAgain? ==> s'.meta && s'.books.used != [])
  {
  }

  lemma {:induction false} LockedLoop(cfg: TaskConfig, script: nat -> TaskTurn, n: nat, s: State, last: Option<TaskError>)
    requires cfg.locked.Some? && Ready(s) && LockedBooks(s.books) && (s.meta <==> s.books.used != [])
    ensures LockedBooks(TaskLoop(cfg, script, n, s, last).0.books)
    decreases if s.retry <= cfg.base.retryTimes then Budget(cfg.base, s) + 1 else 0
  {
    if s.retry <= cfg.base.retryTimes {
      LockedTurn(cfg, script(n), s);
      var (s', next) := TaskAttempt(cfg, script(n), s);
      if next.TryAgain? {
        TryAgainSpends(cfg, script(n), s);
        LockedLoop(cfg, script, n + 1, IncreaseRetry(s'), Some(next.error));
      }
    }
  }

  // ---------- what a task run promises ----------

  /** Every turn keeps the bill pending: at most its advance has been taken. */
  lemma AttemptKeepsPending(cfg: TaskConfig, t: TaskTurn, s: State, a: Accounts)
    requires Pending(a, cfg.base.playground, s.bill)
    ensures Pending(a, cfg.base.playground, TaskAttempt(cfg, t, s).0.bill)
    ensures s.bill.session.Some? ==> TaskAttempt(cfg, t, s).0.bill == s.bill
  {
    SelectKeepsBooks(cfg.base, t.base, s);
    if t.submission.Reached? && t.submission.opening.Some? {
      OpeningKeepsPending(a, cfg.base.playground, s.bill, t.submission.opening.value);
    }
  }

  /** However many turns run, whichever opens the session: when the loop ends one
      advance at most has been taken, and no session replaces another. */
  lemma {:induction false} LoopKeepsPending(cfg: TaskConfig, script: nat -> TaskTurn, n: nat, s: State,
                                            last: Option<TaskError>, a: Accounts)
    requires Ready(s) && Pending(a, cfg.base.playground, s.bill)
    ensures Pending(a, cfg.base.playground, TaskLoop(cfg, script, n, s, last).0.bill)
    ensures s.bill.session.Some? ==> TaskLoop(cfg, script, n, s, last).0.bill == s.bill
    decreases if s.retry <= cfg.base.retryTimes then Budget(cfg.base, s) + 1 else 0
  {
    if s.retry <= cfg.base.retryTimes {
      AttemptKeepsPending(cfg, script(n), s, a);
      var (s', next) := TaskAttempt(cfg, script(n), s);
      if next.TryAgain? {
        TryAgainSpends(cfg, script(n), s);
        LoopKeepsPending(cfg, script, n + 1, IncreaseRetry(s'), Some(next.error), a);
      }
    }
  }

  /** A stored task has cost the user its quota, from funds and token, exactly when
      the settlement has nothing to move or goes through. A run that stores nothing
      has cost nothing exactly when the refund has nothing to move or goes through. */
  ghost predicate TaskChargedExactly(cfg: TaskConfig, a: Accounts, r: TaskResult) {
    match r.outcome
    case Stored(m) =>
      && r.row == (if cfg.insertFails then None else Some(m.quota))
      && (FundsCharged(a, r.bill) == m.quota <==> m.quota == Advanced(r.bill) || !m.fundingFails)
      && (TokenCharged(a, r.bill) == (if cfg.base.playground then 0 else m.quota) <==>
          cfg.base.playground || m.quota == Advanced(r.bill) || (!m.fundingFails && !m.tokenFails))
    case NotAttempted => r.row.None? && r.bill == Bill(a, None)
    case _ =>
      && r.row.None?
      && (FundsCharged(a, r.bill) == 0 <==> Advanced(r.bill) == 0 || !cfg.base.refundFaults.funding)
      && (TokenCharged(a, r.bill) == 0 <==> cfg.base.playground || Advanced(r.bill) == 0 || !cfg.base.refundFaults.token)
  }

  lemma ConclusionIsCharged(cfg: TaskConfig, a: Accounts, s: State, outcome: TaskOutcome)
    requires Pending(a, cfg.base.playground, s.bill) && (outcome.NotAttempted? ==> s.bill == Bill(a, None))
    ensures TaskChargedExactly(cfg, a, ConcludeTask(cfg, s, outcome))
  {
    if outcome.Stored? {
      SettlingIsExact(a, cfg.base.playground, s.bill, outcome.settlement);
    } else {
      RefundingIsExact(a, cfg.base.playground, s.bill, cfg.base.refundFaults);
    }
  }

  /** Every run charges exactly, having recorded one success exactly when it stores
      the task. With negative retries, and only then, it crashes. */
  lemma SettledOrRefunded(cfg: TaskConfig, a: Accounts, script: nat -> TaskTurn)
    requires cfg.base.bill == Bill(a, None)
    ensures var r := RunTask(cfg, script);
            && TaskChargedExactly(cfg, a, r)
            && (r.crashed <==> cfg.base.retryTimes < 0)
            && |r.books.breakerOk| == (if r.outcome.Stored? then 1 else 0) && r.books.breakerOk == r.books.rateOk
  {
    TaskLoopKeeps(cfg, script, 0, StartTask(cfg), None);
    LoopKeepsPending(cfg, script, 0, StartTask(cfg), None, a);
    var (s, outcome) := TaskLoop(cfg, script, 0, StartTask(cfg), None);
    ConclusionIsCharged(cfg, a, s, outcome);
  }

  /** Slots of an unlocked task balance unless a picked channel cannot be set up. A
      locked task never takes one, and gives back a slot it does not hold exactly
      when it uses its channel a second time. */
  lemma TaskSlots(cfg: TaskConfig, script: nat -> TaskTurn)
    ensures var r := RunTask(cfg, script);
            && (cfg.locked.None? ==> !r.books.fault && (r.books.held.Some? <==> Reaches(cfg, script, 0, StartTask(cfg))))
            && (cfg.locked.Some? ==> r.books.held.None? && (r.books.fault <==> |r.books.used| > 1))
  {
    TaskLoopKeeps(cfg, script, 0, StartTask(cfg), None);
    if cfg.locked.Some? {
      LockedLoop(cfg, script, 0, StartTask(cfg), None);
    }
  }

  lemma LockedTurnUses(cfg: TaskConfig, t: TaskTurn, s: State)
    requires cfg.locked.Some?
    ensures var used := |TaskAttempt(cfg, t, s).0.books.used|;
            used >= |s.books.used| && (t.base.setupError.None? ==> used > |s.books.used|)
  {
  }

  lemma {:induction false} LockedUse(cfg: TaskConfig, script: nat -> TaskTurn, n: nat, s: State, last: Option<TaskError>)
    requires cfg.locked.Some? && Ready(s)
    ensures var used := |TaskLoop(cfg, script, n, s, last).0.books.used|;
            && used >= |s.books.used|
            && (s.retry <= cfg.base.retryTimes && script(n).base.setupError.None? ==> used > |s.books.used|)
    decreases if s.retry <= cfg.base.retryTimes then Budget(cfg.base, s) + 1 else 0
  {
    if s.retry <= cfg.base.retryTimes {
      LockedTurnUses(cfg, script(n), s);
      var (s', next) := TaskAttempt(cfg, script(n), s);
      if next.TryAgain? {
        TryAgainSpends(cfg, script(n), s);
        LockedUse(cfg, script, n + 1, IncreaseRetry(s'), Some(next.error));
      }
    }
  }

  /** A task locked to a channel, whose first submission is sent elsewhere, returns a
      slot it never took, under every configuration that retries. */
  lemma LockedTaskReturnsForeignSlot(cfg: TaskConfig, script: nat -> TaskTurn)
    requires cfg.locked.Some? && cfg.base.retryTimes >= 1 && !cfg.base.specificChannel
    requires script(0).base.body.BodyOk? && !script(0).base.affinitySkip
    requires script(0).submission == Early(TaskError(307, false))
    requires script(1).base.setupError.None?
    ensures RunTask(cfg, script).books.fault
  {
    var s := StartTask(cfg);
    var (s', next) := TaskAttempt(cfg, script(0), s);
    assert next == TryAgain(TaskError(307, false)) && s'.retry == 0 && !s'.reset && |s'.books.used| == 1;
    TryAgainSpends(cfg, script(0), s);
    LockedUse(cfg, script, 1, IncreaseRetry(s'), Some(next.error));
    TaskSlots(cfg, script);
  }

  // ---------- when a failed submission is retried ----------

  /** The channel the turn submits to, if it gets one that can be set up: the locked one,
      on the first turn the one in the context, later the selected one. */
  function Channel(cfg: TaskConfig, t: TaskTurn, s: State): Option<int> {
    if cfg.locked.Some? then (if s.retry >= 1 && t.base.setupError.Some? then None else cfg.locked)
    else if !s.meta then Some(cfg.base.contextChannel)
    else if t.base.setupError.Some? then None
    else Select(cfg.base, t.base, s).1
  }

  /** What the submission comes to: the error of a session that cannot be opened, or the
      upstream's answer. */
  function Reply(cfg: TaskConfig, t: TaskTurn, s: State): Answer {
    match t.submission
    case Early(e) => Rejected(e)
    case Reached(opening, openError, answer) =>
      if opening.Some? && OpenBill(s.bill, cfg.base.playground, opening.value).session.None? then Rejected(openError)
      else answer
  }

  /** The turn gets a channel and its submission fails with `e`. */
  predicate FailsWith(cfg: TaskConfig, t: TaskTurn, s: State, e: TaskError) {
    Channel(cfg, t, s).Some? && t.base.body == BodyOk && Reply(cfg, t, s) == Rejected(e)
  }

  /** When a failed submission is followed by another turn. An upstream's rate limit has
      its own number of retries, and ends when the client is gone; an upstream's refusal
      of the key is final; the rest depends on the request and on the status. */
  predicate Resubmitted(cfg: TaskConfig, t: TaskTurn, e: TaskError, retry: int) {
    if !e.local && e.status == 429 then retry < cfg.base.rateLimitRetryTimes && !t.base.disconnected
    else
      && (e.local || (e.status != 401 && e.status != 403))
      && !t.base.affinitySkip && !cfg.base.specificChannel && retry < cfg.base.retryTimes
      && (|| e.status in {307, 429}
          || (500 <= e.status <= 599 && !cfg.alwaysSkipStatus(e.status))
          || (!e.local && !(500 <= e.status <= 599) && !(200 <= e.status <= 299) && e.status !in {400, 408}))
  }

  lemma ChannelIsChosen(cfg: TaskConfig, t: TaskTurn, s: State)
    ensures var choice := ChooseFor(cfg, t, s);
            && (choice.TaskChosen? <==> Channel(cfg, t, s).Some?)
            && (choice.TaskChosen? ==>
                  && choice.channel == Channel(cfg, t, s).value && choice.state.bill == s.bill
                  && choice.state.books.(held := s.books.held, fault := s.books.fault) == s.books)
  {
    SelectKeepsBooks(cfg.base, t.base, s);
  }

  lemma ReplyIsDelivered(cfg: TaskConfig, t: TaskTurn, s: State)
    ensures Deliver(s.bill, cfg.base.playground, t.submission).1 == Reply(cfg, t, s)
  {
  }

  lemma JudgementOnFailure(cfg: TaskConfig, t: TaskTurn, e: TaskError, retry: int)
    ensures var (mark, next) := Judge(cfg, t, Rejected(e), retry);
            && (if Resubmitted(cfg, t, e, retry) then next == TryAgain(e) else next in {GiveUp(e), Abandoned(e)})
            && mark == if !e.local && e.status !in {429, 401, 403} then MarkFail else NoMark
  {
  }

  lemma FailedSubmission(cfg: TaskConfig, t: TaskTurn, s: State, e: TaskError)
    requires FailsWith(cfg, t, s, e)
    ensures var (s', next) := TaskAttempt(cfg, t, s);
            if Resubmitted(cfg, t, e, s'.retry) then next == TryAgain(e) else next in {GiveUp(e), Abandoned(e)}
  {
    ChannelIsChosen(cfg, t, s);
    ReplyIsDelivered(cfg, t, s);
    JudgementOnFailure(cfg, t, e, ChooseFor(cfg, t, s).state.retry);
  }

  /** A submission that fails, in any turn of any run: if it is to be retried the run
      goes on with the next turn, otherwise it ends there with that very error. */
  lemma SubmissionGoesOnOrEnds(cfg: TaskConfig, script: nat -> TaskTurn, n: nat, s: State,
                               last: Option<TaskError>, e: TaskError)
    requires Ready(s) && s.retry <= cfg.base.retryTimes && FailsWith(cfg, script(n), s, e)
    ensures var s' := TaskAttempt(cfg, script(n), s).0;
            var (f, outcome) := TaskLoop(cfg, script, n, s, last);
            if Resubmitted(cfg, script(n), e, s'.retry)
            then Ready(IncreaseRetry(s')) && (f, outcome) == TaskLoop(cfg, script, n + 1, IncreaseRetry(s'), Some(e))
            else f == s' && outcome in {Refused(e), ClientLeft(e)}
  {
    FailedSubmission(cfg, script(n), s, e);
    if TaskAttempt(cfg, script(n), s).1.TryAgain? {
      TryAgainSpends(cfg, script(n), s);
    }
  }

  /** A turn that submits nothing ends the run, for want of a channel or of a body. */
  lemma UnsubmittedTurnEnds(cfg: TaskConfig, script: nat -> TaskTurn, n: nat, s: State, last: Option<TaskError>)
    requires Ready(s) && s.retry <= cfg.base.retryTimes
    requires Channel(cfg, script(n), s).None? || script(n).base.body != BodyOk
    ensures TaskLoop(cfg, script, n, s, last).1 ==
            Refused(TaskError(if Channel(cfg, script(n), s).None? then 500
                              else if script(n).base.body == BodyTooLarge then 413 else 400, true))
  {
  }

  /** What a submission leaves in the books: the channel is used, and a success is recorded
      for it, or a failure unless it is local, a rate limit or a refusal of the key. */
  lemma SubmissionIsRecorded(cfg: TaskConfig, t: TaskTurn, s: State)
    requires Channel(cfg, t, s).Some? && t.base.body == BodyOk
    ensures var b, b' := s.books, TaskAttempt(cfg, t, s).0.books;
            var channel, reply := Channel(cfg, t, s).value, Reply(cfg, t, s);
            var ok := if reply.Accepted? then multiset{channel} else multiset{};
            var bad := if reply.Rejected? && !reply.error.local && reply.error.status !in {429, 401, 403}
                       then multiset{channel} else multiset{};
            && b'.used == b.used + [channel]
            && b'.breakerOk == b.breakerOk + ok && b'.breakerFail == b.breakerFail + bad
  {
    ChannelIsChosen(cfg, t, s);
    ReplyIsDelivered(cfg, t, s);
    var reply, choice := Reply(cfg, t, s), ChooseFor(cfg, t, s);
    if reply.Rejected? {
      JudgementOnFailure(cfg, t, reply.error, choice.state.retry);
    }
    MarkLeaves(choice.state.books, Judge(cfg, t, reply, choice.state.retry).0, choice.channel, choice.state.meta);
  }

  /** What a submission leaves of the bill: the session its turn opens, if it opens one, and
      that stays until the task is stored or refunded. */
  lemma SubmissionKeepsBill(cfg: TaskConfig, t: TaskTurn, s: State)
    ensures var opens := Channel(cfg, t, s).Some? && t.base.body == BodyOk && t.submission.Reached? && t.submission.opening.Some?;
            TaskAttempt(cfg, t, s).0.bill ==
            if opens then OpenBill(s.bill, cfg.base.playground, t.submission.opening.value) else s.bill
  {
    ChannelIsChosen(cfg, t, s);
    SelectKeepsBooks(cfg.base, t.base, s);
  }

  lemma MarkLeaves(b: Books, mark: Mark, channel: int, selected: bool)
    ensures var b' := Release(Note(Use(b, channel), mark, channel), channel, selected);
            && b'.used == b.used + [channel]
            && b'.breakerOk == b.breakerOk + (if mark.MarkOk? then multiset{channel} else multiset{})
            && b'.breakerFail == b.breakerFail + (if mark.MarkFail? then multiset{channel} else multiset{})
  {
  }

  lemma TurnUses(cfg: TaskConfig, t: TaskTurn, s: State)
    requires s.books.used != [] || (s.retry == 0 && !s.meta)
    ensures TaskAttempt(cfg, t, s).0.books.used != []
  {
    SelectKeepsBooks(cfg.base, t.base, s);
  }

  lemma {:induction false} UsedStays(cfg: TaskConfig, script: nat -> TaskTurn, n: nat, s: State, last: Option<TaskError>)
    requires Ready(s) && (s.books.used != [] || (s.retry == 0 && !s.meta && cfg.base.retryTimes >= 0))
    ensures TaskLoop(cfg, script, n, s, last).0.books.used != []
    decreases if s.retry <= cfg.base.retryTimes then Budget(cfg.base, s) + 1 else 0
  {
    if s.retry <= cfg.base.retryTimes {
      TurnUses(cfg, script(n), s);
      var (s', next) := TaskAttempt(cfg, script(n), s);
      if next.TryAgain? {
        TryAgainSpends(cfg, script(n), s);
        UsedStays(cfg, script, n + 1, IncreaseRetry(s'), Some(next.error));
      }
    }
  }

  /** Whatever the upstream said, a run that is refused answers "unavailable", and a run
      that stores its task or loses its client answers no error. */
  lemma RefusalIsUnavailable(cfg: TaskConfig, script: nat -> TaskTurn)
    ensures var r := RunTask(cfg, script);
            r.response == if r.outcome.Refused? then Some(TaskError(503, true)) else None
  {
    TaskLoopKeeps(cfg, script, 0, StartTask(cfg), None);
    if cfg.base.retryTimes >= 0 {
      UsedStays(cfg, script, 0, StartTask(cfg), None);
    }
  }

  /** The task was stored, but the difference to its advance could not be moved. */
  predicate SettlementLost(r: TaskResult) {
    r.outcome.Stored? && r.outcome.settlement.quota != Advanced(r.bill) && r.outcome.settlement.fundingFails
  }

  /** A stored task whose settlement is not lost starts its life paid for. */
  lemma StoredIsPaid(cfg: TaskConfig, a: Accounts, r: TaskResult)
    requires TaskChargedExactly(cfg, a, r) && r.row.Some? && !SettlementLost(r)
    ensures r.bill.accounts.funds == a.funds - r.row.value
  {
  }

  lemma PaidAfterStoring(a: Accounts, balance: int, row: TaskPolling.Row, moves: seq<TaskPolling.Move>)
    requires balance == a.funds - row.quota && TaskPolling.Open(row)
    requires TaskPolling.OrderlyRun(TaskPolling.Start(row, balance), moves, false)
    ensures var ms := TaskPolling.Finishers(TaskPolling.Start(row, balance), moves);
            var paid := a.funds - TaskPolling.Run(TaskPolling.Start(row, balance), moves).balance;
            |ms| <= 1 && if ms == [] then paid == row.quota else TaskPolling.RightPayment(ms[0], row.quota, paid)
  {
    TaskPolling.FinisherSetsCharge(row, a.funds, moves);
  }

  /** From submission to the last poll: whatever turns the submission took, and however
      many pollers work on the stored task, the user has paid in all the quota of its
      row while it is unfinished, and then what the one finishing move calls for. */
  lemma PaidThroughLife(cfg: TaskConfig, a: Accounts, script: nat -> TaskTurn, row: TaskPolling.Row, moves: seq<TaskPolling.Move>)
    requires cfg.base.bill == Bill(a, None)
    requires RunTask(cfg, script).row == Some(row.quota) && !SettlementLost(RunTask(cfg, script))
    requires TaskPolling.Open(row)
    requires TaskPolling.OrderlyRun(TaskPolling.Start(row, RunTask(cfg, script).bill.accounts.funds), moves, false)
    ensures var stored := TaskPolling.Start(row, RunTask(cfg, script).bill.accounts.funds);
            var ms := TaskPolling.Finishers(stored, moves);
            var paid := a.funds - TaskPolling.Run(stored, moves).balance;
            |ms| <= 1 && if ms == [] then paid == row.quota else TaskPolling.RightPayment(ms[0], row.quota, paid)
  {
    SettledOrRefunded(cfg, a, script);
    StoredIsPaid(cfg, a, RunTask(cfg, script));
    PaidAfterStoring(a, RunTask(cfg, script).bill.accounts.funds, row, moves);
  }

  // ---------- the loop as it is written ----------

  method RelayTaskRequest(cfg: TaskConfig, script: nat -> TaskTurn) returns (r: TaskResult)
    ensures r == RunTask(cfg, script)
  {
    var s, n, error, outcome := StartTask(cfg), 0, None, NotAttempted;
    var done := false;
    while !done && s.retry <= cfg.base.retryTimes
      invariant !done ==> Ready(s) && outcome == (if error.Some? then Refused(error.value) else NotAttempted)
      invariant TaskLoop(cfg, script, 0, StartTask(cfg), None) ==
                if done then (s, outcome) else TaskLoop(cfg, script, n, s, error)
      decreases !done, if s.retry <= cfg.base.retryTimes then Budget(cfg.base, s) + 1 else 0
    {
      BudgetIsPositive(cfg.base, s);
      var (s', next) := TaskAttempt(cfg, script(n), s);
      match next
      case Finish(m) =>
        s, done, outcome := s', true, Stored(m);
      case GiveUp(e) =>
        s, done, outcome := s', true, Refused(e);
      case Abandoned(e) =>
        s, done, outcome := s', true, ClientLeft(e);
      case TryAgain(e) =>
        TryAgainSpends(cfg, script(n), s);
        s, n, error, outcome := IncreaseRetry(s'), n + 1, Some(e), Refused(e);
    }
    r := ConcludeTask(cfg, s, outcome);
  }
}
