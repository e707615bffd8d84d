/** The retry loop that relays a request through upstream channels. What the
    outside world does in each turn of the loop (which channel a selection yields,
    what the handler returns, whether the client is still there) is a script; what
    the loop does to the outside world is kept in books. */
module Relay {
  import opened Billing
  import opened Common

  datatype ApiError = ApiError(status: int, code: string, skipRetry: bool)

  predicate IsRateLimit(e: ApiError) {
    e.status == 429
  }

  predicate IsAuthError(e: ApiError) {
    e.status == 401 || e.status == 403 || e.code == "channel:invalid_key" || e.code == "access_denied"
  }

  predicate IsChannelError(e: ApiError) {
    "channel:" <= e.code
  }

  const UNAVAILABLE := ApiError(503, "model_not_found", false)
  const NO_CHANNEL := ApiError(500, "get_channel_failed", true)

  /** A token's group: one group, or a list of groups tried in order, optionally
      moving on to the next group when the retries of one are used up. */
  datatype Groups = Plain | Auto(count: nat, cross: bool)

  datatype Config = Config(
    retryTimes: int,
    rateLimitRetryTimes: int,
    groups: Groups,
    startGroup: nat,
    contextChannel: int,
    specificChannel: bool,
    playground: bool,
    bill: Bill,
    refundFaults: RefundFaults,
    alwaysSkipCode: string -> bool,
    retryByStatus: int -> bool)

  datatype Body = BodyOk | BodyTooLarge | BodyUnreadable

  /** The outside world in one turn. A handler first fills in the channel metadata,
      and settles the bill if it succeeds. */
  datatype Turn = Turn(
    plainPick: Option<int>,
    groupPick: nat -> Option<int>,
    setupError: Option<ApiError>,
    body: Body,
    result: Option<ApiError>,
    settlement: Settlement,
    disconnected: bool,
    affinitySkip: bool)

  /** Everything the loop has done to the outside world. `fault` is set by taking a
      second slot or returning one that is not held; `due` collects the channels
      of failed handler calls that were not rate limited. */
  datatype Books = Books(
    used: seq<int>,
    held: Option<int>,
    fault: bool,
    breakerOk: multiset<int>,
    rateOk: multiset<int>,
    breakerFail: multiset<int>,
    rateFail: multiset<int>,
    due: multiset<int>)

  const BLANK := Books([], None, false, multiset{}, multiset{}, multiset{}, multiset{}, multiset{})

  function Acquire(b: Books, channel: int): Books {
    b.(held := Some(channel), fault := b.fault || b.held.Some?)
  }

  function Release(b: Books, channel: int, selected: bool): Books {
    if !selected then b else b.(held := None, fault := b.fault || b.held != Some(channel))
  }

  function Use(b: Books, channel: int): Books {
    b.(used := b.used + [channel])
  }

  function MarkSuccess(b: Books, channel: int): Books {
    b.(breakerOk := b.breakerOk + multiset{channel}, rateOk := b.rateOk + multiset{channel})
  }

  function MarkFailure(b: Books, channel: int): Books {
    b.(breakerFail := b.breakerFail + multiset{channel}, rateFail := b.rateFail + multiset{channel})
  }

  /** Notes a failed handler call that ought to be recorded as a failure. */
  function NoteResult(b: Books, channel: int, e: ApiError): Books {
    if IsRateLimit(e) then b else b.(due := b.due + multiset{channel})
  }

  /** The retry counter, its one-turn reset flag, the group index, whether a handler
      has run and so filled in the channel metadata, the books and the bill. */
  datatype State = State(retry: int, reset: bool, group: nat, meta: bool, books: Books, bill: Bill)

  // ---------- choosing a channel ----------

  function GroupCount(cfg: Config): nat {
    if cfg.groups.Auto? then cfg.groups.count else 0
  }

  /** Walks the groups from `i` on until one yields a channel. */
  function Walk(cfg: Config, t: Turn, s: State, start: nat, i: nat): (State, Option<int>)
    decreases GroupCount(cfg) - i
  {
    if i >= GroupCount(cfg) then (s, None)
    else if t.groupPick(i).None? then Walk(cfg, t, s.(group := i + 1, retry := 0), start, i + 1)
    else
      var priorityRetry := if i > start then 0 else s.retry;
      if cfg.groups.Auto? && cfg.groups.cross && priorityRetry >= cfg.retryTimes
      then (s.(group := i + 1, retry := 0, reset := true), t.groupPick(i))
      else (s.(group := i), t.groupPick(i))
  }

  function Select(cfg: Config, t: Turn, s: State): (State, Option<int>) {
    if cfg.groups.Plain? then (s, t.plainPick) else Walk(cfg, t, s, s.group, s.group)
  }

  datatype Choice = Chosen(state: State, channel: int) | NotChosen(state: State, error: ApiError)

  /** The first turn uses the channel the middleware put in the context, which keeps
      its own slot. A later selection takes a slot, and keeps it if setting the
      channel up fails. */
  function GetChannel(cfg: Config, t: Turn, s: State): Choice {
    if !s.meta then Chosen(s, cfg.contextChannel)
    else
      var (s1, pick) := Select(cfg, t, s);
      if pick.None? then NotChosen(s1, NO_CHANNEL)
      else
        var s2 := s1.(books := Acquire(s1.books, pick.value));
        if t.setupError.Some? then NotChosen(s2, t.setupError.value) else Chosen(s2, pick.value)
  }

  // ---------- one turn ----------

  predicate ShouldRetry(cfg: Config, t: Turn, e: ApiError, retriesLeft: int) {
    if t.affinitySkip then false
    else if IsChannelError(e) then true
    else if e.skipRetry || retriesLeft <= 0 || cfg.specificChannel || 200 <= e.status < 300 then false
    else if e.status < 100 || e.status > 599 then true
    else !cfg.alwaysSkipCode(e.code) && cfg.retryByStatus(e.status)
  }

  datatype Next = Succeed(settlement: Settlement) | Again(error: ApiError) | Stop(error: ApiError) | ClientGone(error: ApiError)

  function Attempt(cfg: Config, t: Turn, s: State): (State, Next) {
    match GetChannel(cfg, t, s)
    case NotChosen(s1, e) => (s1, Stop(e))
    case Chosen(s1, channel) =>
      var selected := s1.meta;
      var b := Use(s1.books, channel);
      if t.body != BodyOk then
        (s1.(books := Release(b, channel, selected)),
         Stop(ApiError(if t.body == BodyTooLarge then 413 else 400, "read_request_body_failed", true)))
      else
        var s2 := s1.(meta := true);
        if t.result.None? then
          (s2.(books := Release(MarkSuccess(b, channel), channel, selected),
               bill := SettleBill(s2.bill, cfg.playground, t.settlement)), Succeed(t.settlement))
        else
          var e := t.result.value;
          var noted := NoteResult(b, channel, e);
          if IsRateLimit(e) then
            (s2.(books := Release(noted, channel, selected)),
             if s2.retry >= cfg.rateLimitRetryTimes then Stop(e) else if t.disconnected then ClientGone(e) else Again(e))
          else
            (s2.(books := Release(MarkFailure(noted, channel), channel, selected)),
             if IsAuthError(e) then (if s2.retry < cfg.retryTimes then Again(e) else Stop(e))
             else if ShouldRetry(cfg, t, e, cfg.retryTimes - s2.retry) then Again(e) else Stop(e))
  }

  function IncreaseRetry(s: State): State {
    if s.reset then s.(reset := false) else s.(retry := s.retry + 1)
  }

  // ---------- the loop ----------

  /** How many more turns the loop can take. */
  function Budget(cfg: Config, s: State): int {
    (if s.group <= GroupCount(cfg) then GroupCount(cfg) - s.group else 0) * (cfg.retryTimes + 1)
    + cfg.retryTimes + 1 - s.retry
  }

  predicate Ready(s: State) {
    s.retry >= 0 && !s.reset
  }

  /** Selecting either stays put or moves to a later group with a fresh counter. */
  ghost predicate Moved(s: State, s': State) {
    && s'.meta == s.meta && s'.books == s.books && s'.bill == s.bill
    && (s' == s || (s'.group > s.group && s'.retry == 0))
  }

  lemma {:induction false} WalkMoves(cfg: Config, t: Turn, s: State, start: nat, i: nat)
    requires Ready(s) && start <= i && s.group == i && (i > start ==> s.retry == 0)
    ensures Moved(s, Walk(cfg, t, s, start, i).0)
    ensures Walk(cfg, t, s, start, i).1.Some? ==>
              i < GroupCount(cfg) && Walk(cfg, t, s, start, i).0.group <= GroupCount(cfg)
    decreases GroupCount(cfg) - i
  {
    if i < GroupCount(cfg) && t.groupPick(i).None? {
      WalkMoves(cfg, t, s.(group := i + 1, retry := 0), start, i + 1);
    }
  }

  lemma SelectMoves(cfg: Config, t: Turn, s: State)
    requires Ready(s)
    ensures Moved(s, Select(cfg, t, s).0)
    ensures Select(cfg, t, s).1.Some? && Select(cfg, t, s).0 != s ==> s.group < GroupCount(cfg)
    ensures cfg.groups.Plain? ==> Select(cfg, t, s).0 == s
  {
    if !cfg.groups.Plain? {
      WalkMoves(cfg, t, s, s.group, s.group);
    }
  }

  /** A turn that ends in another retry spends budget. */
  lemma AgainSpends(cfg: Config, t: Turn, s: State)
    requires Ready(s) && s.retry <= cfg.retryTimes && Attempt(cfg, t, s).1.Again?
    ensures var s' := IncreaseRetry(Attempt(cfg, t, s).0);
            Ready(s') && s'.retry <= cfg.retryTimes + 1 && 0 <= Budget(cfg, s') < Budget(cfg, s)
  {
    SelectMoves(cfg, t, s);
    var s1 := if s.meta then Select(cfg, t, s).0 else s;
    var s' := IncreaseRetry(Attempt(cfg, t, s).0);
    assert Attempt(cfg, t, s).0.retry == s1.retry && Attempt(cfg, t, s).0.group == s1.group;
    if s1.group > s.group {
      FewerGroups(GroupCount(cfg), s.group, s1.group, cfg.retryTimes + 1);
    }
  }

  lemma FewerGroups(count: nat, group: nat, group': nat, width: nat)
    requires group < group' && group < count
    ensures (if group' <= count then count - group' else 0) * width + width <= (count - group) * width
  {
    var left := if group' <= count then count - group' else 0;
    var more := count - group - (left + 1);
    assert more * width >= 0;
    assert (count - group) * width == left * width + width + more * width;
  }

  datatype Outcome = Succeeded(settlement: Settlement) | Failed(error: ApiError) | Disconnected(error: ApiError) | NeverRan

  /** Turn `n` of the loop, `last` being the error of the turn before. */
  function Loop(cfg: Config, script: nat -> Turn, n: nat, s: State, last: Option<ApiError>): (State, Outcome)
    requires Ready(s)
    decreases if s.retry <= cfg.retryTimes then Budget(cfg, s) + 1 else 0
  {
    if s.retry > cfg.retryTimes then (s, if last.Some? then Failed(last.value) else NeverRan)
    else
      var (s', next) := Attempt(cfg, script(n), s);
      match next
      case Succeed(m) => (s', Succeeded(m))
      case Stop(e) => (s', Failed(e))
      case ClientGone(e) => (s', Disconnected(e))
      case Again(e) =>
        AgainSpends(cfg, script(n), s);
        Loop(cfg, script, n + 1, IncreaseRetry(s'), Some(e))
  }

  datatype Result = Result(books: Books, outcome: Outcome, response: Option<ApiError>, bill: Bill, retry: int)

  /** After the loop several attempts, or an upstream authentication failure, show
      to the client as "no available channel"; a run that ends in an error gives
      back what was taken in advance. */
  function Conclude(cfg: Config, s: State, outcome: Outcome): Result {
    var response :=
      match outcome
      case Succeeded(_) => None
      case NeverRan => None
      case Disconnected(e) => Some(e)
      case Failed(e) => if s.books.used != [] && (IsAuthError(e) || s.retry > 0) then Some(UNAVAILABLE) else Some(e);
    Result(s.books, outcome, response,
           if response.Some? then RefundBill(s.bill, cfg.playground, cfg.refundFaults) else s.bill, s.retry)
  }

  function Start(cfg: Config): State {
    State(0, false, cfg.startGroup, false, BLANK, cfg.bill)
  }

  function Run(cfg: Config, script: nat -> Turn): Result {
    var (s, outcome) := Loop(cfg, script, 0, Start(cfg), None);
    Conclude(cfg, s, outcome)
  }

  // ---------- what every turn keeps ----------

  /** No slot is held, none was mishandled, and every recorded outcome was recorded
      once with the breaker and once with the success rate. */
  ghost predicate Balanced(b: Books) {
    Recorded(b) && b.held.None?
  }

  ghost predicate Recorded(b: Books) {
    !b.fault && b.breakerFail == b.rateFail == b.due && b.breakerOk == b.rateOk
  }

  /** The turn picked a channel that then could not be set up. */
  predicate SetupFails(cfg: Config, t: Turn, s: State) {
    s.meta && Select(cfg, t, s).1.Some? && t.setupError.Some?
  }

  /** Choosing takes a slot exactly when a selection picks a channel. */
  lemma ChoiceBooks(cfg: Config, t: Turn, s: State)
    requires Ready(s)
    ensures var c := GetChannel(cfg, t, s);
            && c.state.meta == s.meta
            && (c.Chosen? ==> c.state.books == if s.meta then Acquire(s.books, c.channel) else s.books)
            && (c.NotChosen? && !SetupFails(cfg, t, s) ==> c.state.books == s.books)
            && (SetupFails(cfg, t, s) ==> c.NotChosen? && exists ch :: c.state.books == Acquire(s.books, ch))
  {
    SelectMoves(cfg, t, s);
  }

  /** Each way a turn can end gives the slot back and records what is due. */
  lemma EndingsBalance(b0: Books, channel: int, selected: bool, e: ApiError)
    requires Balanced(b0)
    ensures var b := Use(if selected then Acquire(b0, channel) else b0, channel);
            var noted := NoteResult(b, channel, e);
            && Balanced(Release(b, channel, selected))
            && Balanced(Release(MarkSuccess(b, channel), channel, selected))
            && Balanced(Release(if IsRateLimit(e) then noted else MarkFailure(noted, channel), channel, selected))
  {
  }

  lemma AttemptRecords(cfg: Config, t: Turn, s: State)
    requires Ready(s) && Balanced(s.books)
    ensures var (s', next) := Attempt(cfg, t, s);
            && Recorded(s'.books)
            && (s'.books.held.Some? <==> SetupFails(cfg, t, s))
            && |s'.books.breakerOk| == |s.books.breakerOk| + (if next.Succeed? then 1 else 0)
  {
    ChoiceBooks(cfg, t, s);
    var c := GetChannel(cfg, t, s);
    if c.Chosen? {
      EndingsBalance(s.books, c.channel, s.meta, if t.result.Some? then t.result.value else NO_CHANNEL);
    }
  }

  lemma AttemptCounts(cfg: Config, t: Turn, s: State)
    requires Ready(s)
    ensures var (s', next) := Attempt(cfg, t, s);
            && (SetupFails(cfg, t, s) ==> next == Stop(t.setupError.value))
            && |s.books.used| <= |s'.books.used| <= |s.books.used| + 1
            && (!next.Stop? || !s.meta ==> |s'.books.used| == |s.books.used| + 1)
  {
    SelectMoves(cfg, t, s);
  }

  /** The loop ended because a picked channel could not be set up. */
  predicate EndsInSetup(cfg: Config, script: nat -> Turn, n: nat, s: State)
    requires Ready(s)
    decreases if s.retry <= cfg.retryTimes then Budget(cfg, s) + 1 else 0
  {
    s.retry <= cfg.retryTimes &&
    if SetupFails(cfg, script(n), s) then true
    else
      Attempt(cfg, script(n), s).1.Again? &&
      (AgainSpends(cfg, script(n), s);
       EndsInSetup(cfg, script, n + 1, IncreaseRetry(Attempt(cfg, script(n), s).0)))
  }

  lemma {:induction false} LoopKeeps(cfg: Config, script: nat -> Turn, n: nat, s: State, last: Option<ApiError>)
    requires Ready(s) && Balanced(s.books)
    ensures var (f, outcome) := Loop(cfg, script, n, s, last);
            && Recorded(f.books)
            && (f.books.held.Some? <==> EndsInSetup(cfg, script, n, s))
            && |f.books.breakerOk| == |s.books.breakerOk| + (if outcome.Succeeded? then 1 else 0)
            && (outcome.NeverRan? <==> s.retry > cfg.retryTimes && last.None?)
            && (s.retry <= cfg.retryTimes && !s.meta ==> f.books.used != [])
            && (last.Some? && s.books.used != [] ==> f.books.used != [])
    decreases if s.retry <= cfg.retryTimes then Budget(cfg, s) + 1 else 0
  {
    if s.retry <= cfg.retryTimes {
      AttemptRecords(cfg, script(n), s);
      AttemptCounts(cfg, script(n), s);
      var (s', next) := Attempt(cfg, script(n), s);
      if next.Again? {
        AgainSpends(cfg, script(n), s);
        LoopKeeps(cfg, script, n + 1, IncreaseRetry(s'), Some(next.error));
      }
    }
  }

  lemma BudgetIsPositive(cfg: Config, s: State)
    ensures s.retry <= cfg.retryTimes && s.retry >= 0 ==> Budget(cfg, s) >= 1
    ensures 0 <= s.retry <= cfg.retryTimes + 1 ==> Budget(cfg, s) >= 0
  {
    var left := if s.group <= GroupCount(cfg) then GroupCount(cfg) - s.group else 0;
    assert cfg.retryTimes + 1 >= 0 ==> left * (cfg.retryTimes + 1) >= 0;
  }

  // ---------- what a run promises ----------

  /** In every run each slot taken is given back before the next is taken or the run
      ends, except the slot of a picked channel whose setup fails; success is
      recorded once exactly when the run succeeds; and each failed handler call
      that was not rate limited is recorded as exactly one failure. */
  lemma SlotsAndRecords(cfg: Config, script: nat -> Turn)
    ensures var r := Run(cfg, script);
            && !r.books.fault
            && (r.books.held.Some? <==> EndsInSetup(cfg, script, 0, Start(cfg)))
            && r.books.breakerFail == r.books.rateFail == r.books.due
            && r.books.breakerOk == r.books.rateOk
            && |r.books.breakerOk| == (if r.outcome.Succeeded? then 1 else 0)
  {
    LoopKeeps(cfg, script, 0, Start(cfg), None);
  }

  lemma AttemptBill(cfg: Config, t: Turn, s: State)
    requires Ready(s)
    ensures var (s', next) := Attempt(cfg, t, s);
            s'.bill == if next.Succeed? then SettleBill(s.bill, cfg.playground, next.settlement) else s.bill
  {
    SelectMoves(cfg, t, s);
  }

  /** The bill is settled once, by the handler that succeeds. */
  lemma {:induction false} LoopBill(cfg: Config, script: nat -> Turn, n: nat, s: State, last: Option<ApiError>)
    requires Ready(s)
    ensures var (f, outcome) := Loop(cfg, script, n, s, last);
            && f.bill == (if outcome.Succeeded? then SettleBill(s.bill, cfg.playground, outcome.settlement) else s.bill)
            && (outcome.Succeeded? ==> exists k: nat :: k >= n && script(k).settlement == outcome.settlement)
    decreases if s.retry <= cfg.retryTimes then Budget(cfg, s) + 1 else 0
  {
    if s.retry <= cfg.retryTimes {
      AttemptBill(cfg, script(n), s);
      var (s', next) := Attempt(cfg, script(n), s);
      if next.Again? {
        AgainSpends(cfg, script(n), s);
        LoopBill(cfg, script, n + 1, IncreaseRetry(s'), Some(next.error));
      }
    }
  }

  /** A run answers with an error exactly when it does not succeed, exactly when
      retries are not configured negative: then the loop never runs, nothing is
      answered, and what was taken in advance is neither settled nor given back. */
  lemma AnsweredUnlessNegative(cfg: Config, script: nat -> Turn)
    ensures var r := Run(cfg, script);
            && (cfg.retryTimes >= 0 <==> (r.response.Some? <==> !r.outcome.Succeeded?))
            && (cfg.retryTimes < 0 <==> r.outcome.NeverRan?)
            && (cfg.retryTimes < 0 ==> r.books == BLANK && r.response.None? && r.bill == cfg.bill)
  {
    LoopKeeps(cfg, script, 0, Start(cfg), None);
  }

  /** What a run costs the user who started with accounts `a`. A successful run is
      charged its handler's price, from funds and token, exactly when the
      settlement has nothing to move or goes through; a failed run costs nothing
      exactly when the refund has nothing to move or goes through. */
  ghost predicate ChargedExactly(cfg: Config, a: Accounts, bill: Bill, r: Result) {
    match r.outcome
    case Succeeded(m) =>
      && (FundsCharged(a, r.bill) == m.quota <==> m.quota == Advanced(bill) || !m.fundingFails)
      && (TokenCharged(a, r.bill) == (if cfg.playground then 0 else m.quota) <==>
          cfg.playground || m.quota == Advanced(bill) || (!m.fundingFails && !m.tokenFails))
    case NeverRan => FundsCharged(a, r.bill) == Advanced(bill)
    case _ =>
      && (FundsCharged(a, r.bill) == 0 <==> Advanced(bill) == 0 || !cfg.refundFaults.funding)
      && (TokenCharged(a, r.bill) == 0 <==> cfg.playground || Advanced(bill) == 0 || !cfg.refundFaults.token)
  }

  lemma RunIsCharged(cfg: Config, a: Accounts, script: nat -> Turn)
    requires Pending(a, cfg.playground, cfg.bill)
    ensures ChargedExactly(cfg, a, cfg.bill, Run(cfg, script))
  {
    LoopBill(cfg, script, 0, Start(cfg), None);
    var outcome := Loop(cfg, script, 0, Start(cfg), None).1;
    if outcome.Succeeded? {
      SettlingIsExact(a, cfg.playground, cfg.bill, outcome.settlement);
    } else {
      RefundingIsExact(a, cfg.playground, cfg.bill, cfg.refundFaults);
    }
  }

  /** The whole request: a free model has no session; otherwise one must be opened
      before the loop, or the request is turned away. */
  datatype Reply = TurnedAway(accounts: Accounts) | Handled(bill: Bill, result: Result)

  function Serve(cfg: Config, a: Accounts, opening: Option<seq<Try>>, script: nat -> Turn): Reply {
    var bill := if opening.None? then Bill(a, None) else OpenBill(Bill(a, None), cfg.playground, opening.value);
    if opening.Some? && bill.session.None? then TurnedAway(bill.accounts)
    else Handled(bill, Run(cfg.(bill := bill), script))
  }

  /** Every request costs exactly its price if it succeeds and nothing if it is
      turned away or fails, up to the stated write failures. */
  lemma RefundedOnce(cfg: Config, a: Accounts, opening: Option<seq<Try>>, script: nat -> Turn)
    ensures match Serve(cfg, a, opening, script)
            case TurnedAway(a') => a'.funds == a.funds && a.token - a'.token == a'.lost - a.lost
            case Handled(bill, r) => Pending(a, cfg.playground, bill) && ChargedExactly(cfg, a, bill, r)
  {
    var bill := if opening.None? then Bill(a, None) else OpenBill(Bill(a, None), cfg.playground, opening.value);
    if opening.Some? {
      OpeningKeepsPending(a, cfg.playground, Bill(a, None), opening.value);
    }
    RunIsCharged(cfg.(bill := bill), a, script);
  }

  // ---------- the loop as it is written ----------

  method RelayRequest(cfg: Config, script: nat -> Turn) returns (r: Result)
    ensures r == Run(cfg, script)
  {
    var s, n, error, outcome := Start(cfg), 0, None, NeverRan;
    var done := false;
    while !done && s.retry <= cfg.retryTimes
      invariant !done ==> Ready(s) && outcome == (if error.Some? then Failed(error.value) else NeverRan)
      invariant Loop(cfg, script, 0, Start(cfg), None) == if done then (s, outcome) else Loop(cfg, script, n, s, error)
      decreases !done, if s.retry <= cfg.retryTimes then Budget(cfg, s) + 1 else 0
    {
      var t := script(n);
      BudgetIsPositive(cfg, s);
      var next;
      s, next := TryOnce(cfg, t, s);
      match next
      case Succeed(m) =>
        done, outcome := true, Succeeded(m);
      case Stop(e) =>
        done, outcome := true, Failed(e);
      case ClientGone(e) =>
        done, outcome := true, Disconnected(e);
      case Again(e) =>
        s, n, error, outcome := IncreaseRetry(s), n + 1, Some(e), Failed(e);
    }
    r := Conclude(cfg, s, outcome);
  }

  /** One pass through the body of the loop. */
  method TryOnce(cfg: Config, t: Turn, before: State) returns (s: State, next: Next)
    ensures (s, next) == Attempt(cfg, t, before)
    ensures Ready(before) && before.retry <= cfg.retryTimes && next.Again? ==>
              Ready(IncreaseRetry(s)) && 0 <= Budget(cfg, IncreaseRetry(s)) < Budget(cfg, before)
  {
    if Ready(before) && before.retry <= cfg.retryTimes && Attempt(cfg, t, before).1.Again? {
      AgainSpends(cfg, t, before);
    }
    var choice := GetChannel(cfg, t, before);
    s := choice.state;
    if choice.NotChosen? {
      return s, Stop(choice.error);
    }
    var channel, releaseSelected := choice.channel, s.meta;
    var books := Use(s.books, channel);
    if t.body != BodyOk {
      s := s.(books := Release(books, channel, releaseSelected));
      return s, Stop(ApiError(if t.body == BodyTooLarge then 413 else 400, "read_request_body_failed", true));
    }
    s := s.(meta := true);
    if t.result.None? {
      s := s.(bill := SettleBill(s.bill, cfg.playground, t.settlement));
      books := MarkSuccess(books, channel);
      s := s.(books := Release(books, channel, releaseSelected));
      return s, Succeed(t.settlement);
    }
    var e := t.result.value;
    books := NoteResult(books, channel, e);
    if IsRateLimit(e) {
      s := s.(books := Release(books, channel, releaseSelected));
      if s.retry < cfg.rateLimitRetryTimes {
        next := if t.disconnected then ClientGone(e) else Again(e);
        return;
      }
      return s, Stop(e);
    }
    books := MarkFailure(books, channel);
    s := s.(books := Release(books, channel, releaseSelected));
    if IsAuthError(e) {
      next := if s.retry < cfg.retryTimes then Again(e) else Stop(e);
      return;
    }
    next := if ShouldRetry(cfg, t, e, cfg.retryTimes - s.retry) then Again(e) else Stop(e);
  }
}
