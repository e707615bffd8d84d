/** How long the relay's retry loop can run, and what the client sees of it. With
    automatic groups a selection restarts the retry counter, so both depend on the
    groups. */
module RelayLimits {
  import opened Billing
  import opened Common
  import opened Relay

  // ---------- the most attempts a run can make ----------

  /** The groups a selection can still use. */
  function Remaining(cfg: Config, group: nat): nat {
    if group < GroupCount(cfg) then GroupCount(cfg) - group else 0
  }

  /** What one further group adds: with cross-group retry its last attempt moves on
      by itself; without, the move costs the attempt that finds the group empty. */
  function Width(cfg: Config): int {
    if cfg.groups.Auto? && cfg.groups.cross then cfg.retryTimes + 1 else cfg.retryTimes
  }

  /** The most attempts with `groups` left to select from and the counter at `retry`. */
  function InGroups(retryTimes: int, width: int, groups: nat, retry: int): int {
    if retry > retryTimes || groups == 0 then 0 else retryTimes + 1 - retry + (groups - 1) * width
  }

  /** The most attempts still to come from a state. Before the metadata is filled in
      the next attempt uses the context's channel and no group. */
  function Left(cfg: Config, s: State): int {
    var groups := Remaining(cfg, s.group);
    if s.retry > cfg.retryTimes then 0
    else if cfg.groups.Plain? then cfg.retryTimes + 1 - s.retry
    else if !s.meta && (groups == 0 || s.retry == cfg.retryTimes) then 1
    else InGroups(cfg.retryTimes, Width(cfg), groups, s.retry)
  }

  function MaxAttempts(cfg: Config): int {
    if cfg.retryTimes < 0 then 0
    else if cfg.groups.Plain? then cfg.retryTimes + 1
    else if cfg.retryTimes == 0 || cfg.startGroup >= cfg.groups.count then 1
    else if cfg.groups.cross then (cfg.groups.count - cfg.startGroup) * (cfg.retryTimes + 1)
    else (cfg.groups.count - cfg.startGroup) * cfg.retryTimes + 1
  }

  lemma StartLeft(cfg: Config)
    ensures Left(cfg, Start(cfg)) == MaxAttempts(cfg)
  {
    if cfg.groups.Auto? && cfg.startGroup < cfg.groups.count {
      var n := cfg.groups.count - cfg.startGroup;
      assert (n - 1) * (cfg.retryTimes + 1) + cfg.retryTimes + 1 == n * (cfg.retryTimes + 1);
      assert (n - 1) * cfg.retryTimes + cfg.retryTimes + 1 == n * cfg.retryTimes + 1;
    }
  }

  /** Staying in a group, leaving it after an attempt and skipping it all spend. */
  lemma GroupsSpend(retryTimes: int, width: int, groups: nat, retry: int)
    requires 0 <= retry <= retryTimes <= width && groups > 0
    ensures InGroups(retryTimes, width, groups, retry) >= 1
    ensures 1 + InGroups(retryTimes, width, groups, retry + 1) <= InGroups(retryTimes, width, groups, retry)
    ensures InGroups(retryTimes, width, groups - 1, 0) <= InGroups(retryTimes, width, groups, retry)
    ensures width == retryTimes + 1 ==>
              1 + InGroups(retryTimes, width, groups - 1, 0) <= InGroups(retryTimes, width, groups, retry)
  {
    assert (groups - 1) * width >= 0;
    assert (groups - 1) * width == (groups - 2) * width + width;
  }

  lemma LeftIsNotNegative(cfg: Config, s: State)
    requires s.retry >= 0
    ensures Left(cfg, s) >= if s.retry > cfg.retryTimes || (s.meta && cfg.groups.Auto? && Remaining(cfg, s.group) == 0) then 0 else 1
  {
    if s.retry <= cfg.retryTimes && Remaining(cfg, s.group) > 0 {
      GroupsSpend(cfg.retryTimes, Width(cfg), Remaining(cfg, s.group), s.retry);
    }
  }

  /** Walking on to a later group leaves no more attempts than staying. */
  lemma {:induction false} WalkSpends(cfg: Config, t: Turn, s: State, start: nat, i: nat)
    requires Ready(s) && s.meta && s.retry <= cfg.retryTimes && start <= i && s.group == i && (i > start ==> s.retry == 0)
    requires cfg.groups.Auto? && Walk(cfg, t, s, start, i).1.Some?
    ensures 1 + Left(cfg, IncreaseRetry(Walk(cfg, t, s, start, i).0)) <= Left(cfg, s)
    decreases GroupCount(cfg) - i
  {
    GroupsSpend(cfg.retryTimes, Width(cfg), Remaining(cfg, i), s.retry);
    if t.groupPick(i).None? {
      WalkSpends(cfg, t, s.(group := i + 1, retry := 0), start, i + 1);
    }
  }

  lemma TurnSpends(cfg: Config, t: Turn, s: State)
    requires Ready(s) && s.retry <= cfg.retryTimes
    ensures var (s', next) := Attempt(cfg, t, s);
            |s'.books.used| + (if next.Again? then Left(cfg, IncreaseRetry(s')) else 0) <= |s.books.used| + Left(cfg, s)
  {
    AttemptCounts(cfg, t, s);
    LeftIsNotNegative(cfg, s);
    if !s.meta {
      if Attempt(cfg, t, s).1.Again? {
        FirstSpends(cfg, t, s);
      }
    } else if GetChannel(cfg, t, s).Chosen? {
      ChosenSpends(cfg, t, s);
    }
  }

  lemma FirstSpends(cfg: Config, t: Turn, s: State)
    requires Ready(s) && s.retry <= cfg.retryTimes && !s.meta && Attempt(cfg, t, s).1.Again?
    ensures var s' := Attempt(cfg, t, s).0; 1 + Left(cfg, IncreaseRetry(s')) <= Left(cfg, s)
  {
    if Remaining(cfg, s.group) > 0 {
      GroupsSpend(cfg.retryTimes, Width(cfg), Remaining(cfg, s.group), s.retry);
    }
    var s' := Attempt(cfg, t, s).0;
    assert s'.retry == s.retry && !s'.reset && s'.group == s.group && s'.meta;
  }

  lemma ChosenSpends(cfg: Config, t: Turn, s: State)
    requires Ready(s) && s.retry <= cfg.retryTimes && s.meta && GetChannel(cfg, t, s).Chosen?
    ensures var s' := Attempt(cfg, t, s).0; 1 + Left(cfg, IncreaseRetry(s')) <= Left(cfg, s)
  {
    var s1 := Select(cfg, t, s).0;
    SelectMoves(cfg, t, s);
    if cfg.groups.Auto? {
      WalkSpends(cfg, t, s, s.group, s.group);
    }
    var s' := Attempt(cfg, t, s).0;
    assert s'.retry == s1.retry && s'.reset == s1.reset && s'.group == s1.group && s'.meta == s1.meta;
  }

  lemma {:induction false} LoopSpends(cfg: Config, script: nat -> Turn, n: nat, s: State, last: Option<ApiError>)
    requires Ready(s)
    ensures |Loop(cfg, script, n, s, last).0.books.used| <= |s.books.used| + Left(cfg, s)
    decreases if s.retry <= cfg.retryTimes then Budget(cfg, s) + 1 else 0
  {
    LeftIsNotNegative(cfg, s);
    if s.retry <= cfg.retryTimes {
      TurnSpends(cfg, script(n), s);
      var (s', next) := Attempt(cfg, script(n), s);
      if next.Again? {
        AgainSpends(cfg, script(n), s);
        LoopSpends(cfg, script, n + 1, IncreaseRetry(s'), Some(next.error));
      }
    }
  }

  // ---------- the bound is reached ----------

  /** A loop does not look at turns that are over. */
  lemma {:induction false} SameFrom(cfg: Config, a: nat -> Turn, b: nat -> Turn, n: nat, s: State, last: Option<ApiError>)
    requires Ready(s) && forall i: nat :: i >= n ==> a(i) == b(i)
    ensures Loop(cfg, a, n, s, last) == Loop(cfg, b, n, s, last)
    decreases if s.retry <= cfg.retryTimes then Budget(cfg, s) + 1 else 0
  {
    if s.retry <= cfg.retryTimes {
      var (s', next) := Attempt(cfg, a(n), s);
      if next.Again? {
        AgainSpends(cfg, a(n), s);
        SameFrom(cfg, a, b, n + 1, IncreaseRetry(s'), Some(next.error));
      }
    }
  }

  const RETRYABLE := ApiError(500, "channel:x", false)
  const PLAIN_SETTLEMENT := Settlement(0, false, false)

  /** The current group has nothing, every other one does. */
  function Skip(group: nat): nat -> Option<int> {
    g => if g == group then None else Some(0)
  }

  function Everywhere(): nat -> Option<int> {
    g => Some(0)
  }

  /** A turn whose handler fails with an error that is always retried. */
  function FailingTurn(picks: nat -> Option<int>): Turn {
    Turn(Some(0), picks, None, BodyOk, Some(RETRYABLE), PLAIN_SETTLEMENT, false, false)
  }

  /** The turn that wastes nothing: it leaves a group only when it must. */
  function BestTurn(cfg: Config, s: State): Turn {
    var leave := s.retry == cfg.retryTimes && Remaining(cfg, s.group) > 1 && cfg.groups.Auto? && !cfg.groups.cross;
    FailingTurn(if leave then Skip(s.group) else Everywhere())
  }

  lemma RetryableIsRetried(cfg: Config, t: Turn, left: int)
    requires !t.affinitySkip
    ensures !IsRateLimit(RETRYABLE) && !IsAuthError(RETRYABLE) && ShouldRetry(cfg, t, RETRYABLE, left)
  {
    assert RETRYABLE.code[8] != "channel:invalid_key"[8];
    assert RETRYABLE.code[0] != "access_denied"[0];
  }

  lemma BestIsExact(retryTimes: int, width: int, groups: nat, retry: int)
    requires 0 <= retry <= retryTimes && groups > 0
    ensures retry < retryTimes || groups == 1 ==>
              1 + InGroups(retryTimes, width, groups, retry + 1) == InGroups(retryTimes, width, groups, retry)
    ensures retry == retryTimes && width == retryTimes + 1 ==>
              1 + InGroups(retryTimes, width, groups - 1, 0) == InGroups(retryTimes, width, groups, retry)
    ensures retry == retryTimes && width == retryTimes && groups > 1 ==>
              1 + InGroups(retryTimes, width, groups - 1, 1) == InGroups(retryTimes, width, groups, retry)
  {
    assert (groups - 1) * width == (groups - 2) * width + width;
  }

  /** Where the best turn's selection ends up. */
  function BestSelected(cfg: Config, s: State): State {
    if cfg.groups.Plain? || s.retry < cfg.retryTimes then s
    else if cfg.groups.cross then s.(group := s.group + 1, retry := 0, reset := true)
    else if Remaining(cfg, s.group) > 1 then s.(group := s.group + 1, retry := 0)
    else s
  }

  lemma BestSelects(cfg: Config, s: State)
    requires Ready(s) && s.retry <= cfg.retryTimes && (cfg.groups.Auto? ==> Remaining(cfg, s.group) > 0)
    ensures Select(cfg, BestTurn(cfg, s), s) == (BestSelected(cfg, s), Some(0))
  {
    var t := BestTurn(cfg, s);
    if cfg.groups.Auto? && t.groupPick(s.group).None? {
      assert t.groupPick(s.group + 1) == Some(0);
      assert Walk(cfg, t, s.(group := s.group + 1, retry := 0), s.group, s.group + 1).1 == Some(0);
    }
  }

  lemma BestKeepsCount(cfg: Config, s: State)
    requires Ready(s) && s.meta && s.retry <= cfg.retryTimes && (cfg.groups.Auto? ==> Remaining(cfg, s.group) > 0)
    ensures 1 + Left(cfg, IncreaseRetry(BestSelected(cfg, s))) == Left(cfg, s)
  {
    if cfg.groups.Auto? {
      BestIsExact(cfg.retryTimes, Width(cfg), Remaining(cfg, s.group), s.retry);
    }
  }

  /** Any turn of this kind makes one attempt and asks for another. */
  lemma FailingTurnRetries(cfg: Config, t: Turn, s: State)
    requires t.setupError.None? && t.body.BodyOk? && t.result == Some(RETRYABLE) && !t.affinitySkip
    requires s.meta ==> Select(cfg, t, s).1.Some?
    ensures var (s', next) := Attempt(cfg, t, s);
            var s1 := if s.meta then Select(cfg, t, s).0 else s;
            && next == Again(RETRYABLE) && |s'.books.used| == |s1.books.used| + 1
            && s'.retry == s1.retry && s'.reset == s1.reset && s'.group == s1.group && s'.meta
  {
    RetryableIsRetried(cfg, t, cfg.retryTimes - Attempt(cfg, t, s).0.retry);
  }

  lemma LeftIsShape(cfg: Config, s: State, s': State)
    requires s.retry == s'.retry && s.reset == s'.reset && s.group == s'.group && s.meta == s'.meta
    ensures Left(cfg, IncreaseRetry(s)) == Left(cfg, IncreaseRetry(s'))
  {
  }

  lemma BestSpendsOne(cfg: Config, s: State)
    requires Ready(s) && s.retry <= cfg.retryTimes && Left(cfg, s) > 0
    ensures var (s', next) := Attempt(cfg, BestTurn(cfg, s), s);
            && next == Again(RETRYABLE) && |s'.books.used| == |s.books.used| + 1
            && 1 + Left(cfg, IncreaseRetry(s')) == Left(cfg, s)
  {
    var t := BestTurn(cfg, s);
    if s.meta {
      BestSelects(cfg, s);
      BestKeepsCount(cfg, s);
      FailingTurnRetries(cfg, t, s);
      LeftIsShape(cfg, Attempt(cfg, t, s).0, BestSelected(cfg, s));
    } else {
      FailingTurnRetries(cfg, t, s);
      if Remaining(cfg, s.group) > 0 {
        BestIsExact(cfg.retryTimes, Width(cfg), Remaining(cfg, s.group), s.retry);
      }
    }
  }

  /** From every state there is a future that uses up what is left. */
  lemma {:induction false} Reach(cfg: Config, n: nat, s: State, last: Option<ApiError>) returns (script: nat -> Turn)
    requires Ready(s)
    ensures |Loop(cfg, script, n, s, last).0.books.used| == |s.books.used| + Left(cfg, s)
    decreases if s.retry <= cfg.retryTimes then Budget(cfg, s) + 1 else 0
  {
    var t := BestTurn(cfg, s);
    script := _ => t;
    LeftIsNotNegative(cfg, s);
    if s.retry <= cfg.retryTimes && Left(cfg, s) > 0 {
      BestSpendsOne(cfg, s);
      AgainSpends(cfg, t, s);
      var s1 := IncreaseRetry(Attempt(cfg, t, s).0);
      var tail := Reach(cfg, n + 1, s1, Some(RETRYABLE));
      script := (i: nat) => if i == n then t else tail(i);
      SameFrom(cfg, script, tail, n + 1, s1, Some(RETRYABLE));
    }
  }

  /** Every run keeps within the maximum, and makes at least one attempt if any. */
  lemma AttemptsAreBounded(cfg: Config, script: nat -> Turn)
    ensures |Run(cfg, script).books.used| <= MaxAttempts(cfg)
    ensures cfg.retryTimes >= 0 ==> |Run(cfg, script).books.used| >= 1
  {
    StartLeft(cfg);
    LoopSpends(cfg, script, 0, Start(cfg), None);
    LoopKeeps(cfg, script, 0, Start(cfg), None);
  }

  /** Under every configuration some run makes the maximum. */
  lemma BoundIsReached(cfg: Config) returns (script: nat -> Turn)
    ensures |Run(cfg, script).books.used| == MaxAttempts(cfg)
  {
    StartLeft(cfg);
    script := Reach(cfg, 0, Start(cfg), None);
  }

  /** No run makes more than one attempt over the configured retries, exactly when
      there is one group, no retry, or at most one automatic group left. */
  lemma RetryLimitIsExact(cfg: Config)
    requires cfg.retryTimes >= 0
    ensures (forall script: nat -> Turn :: |Run(cfg, script).books.used| <= cfg.retryTimes + 1) <==>
            cfg.groups.Plain? || cfg.retryTimes == 0 || cfg.startGroup + 1 >= cfg.groups.count
  {
    forall script: nat -> Turn ensures |Run(cfg, script).books.used| <= MaxAttempts(cfg) {
      AttemptsAreBounded(cfg, script);
    }
    var worst := BoundIsReached(cfg);
    assert |Run(cfg, worst).books.used| == MaxAttempts(cfg);
    if cfg.groups.Auto? && cfg.startGroup < cfg.groups.count && cfg.retryTimes > 0 {
      GrowsWithGroups(cfg.groups.count - cfg.startGroup, cfg.retryTimes);
    }
  }

  lemma GrowsWithGroups(groups: nat, retryTimes: nat)
    requires groups >= 1 && retryTimes >= 1
    ensures groups == 1 ==> groups * (retryTimes + 1) == groups * retryTimes + 1 == retryTimes + 1
    ensures groups > 1 ==> groups * (retryTimes + 1) > retryTimes + 1 && groups * retryTimes + 1 > retryTimes + 1
  {
    if groups > 1 {
      assert groups * retryTimes == 2 * retryTimes + (groups - 2) * retryTimes;
    }
  }

  // ---------- what the client sees ----------

  /** Selecting from such a state never restarts the counter and still finds a channel. */
  predicate Steady(cfg: Config, group: nat) {
    || cfg.groups.Plain? || group >= cfg.groups.count
    || (cfg.retryTimes <= 1 && !cfg.groups.cross && group + 1 >= cfg.groups.count)
  }

  lemma SteadySelect(cfg: Config, t: Turn, s: State)
    requires Ready(s) && s.retry <= cfg.retryTimes && Steady(cfg, s.group)
    ensures var (s', pick) := Select(cfg, t, s);
            s' == s || (pick.None? && cfg.retryTimes <= 1 && s' == s.(group := s.group + 1, retry := 0))
  {
    if cfg.groups.Auto? && s.group < cfg.groups.count && t.groupPick(s.group).None? {
      var moved := s.(group := s.group + 1, retry := 0);
      assert Walk(cfg, t, moved, s.group, s.group + 1) == (moved, None);
    }
  }

  lemma SteadyTurn(cfg: Config, t: Turn, s: State)
    requires Ready(s) && s.retry <= cfg.retryTimes && Steady(cfg, s.group) && |s.books.used| <= s.retry
    ensures var (s', next) := Attempt(cfg, t, s);
            |s'.books.used| <= s'.retry + 1 && Steady(cfg, s'.group) && (next.Again? ==> !s'.reset)
  {
    AttemptCounts(cfg, t, s);
    SteadySelect(cfg, t, s);
  }

  /** Where the counter never restarts, it counts the attempts. */
  lemma {:induction false} SteadyLoop(cfg: Config, script: nat -> Turn, n: nat, s: State, last: Option<ApiError>)
    requires Ready(s) && Steady(cfg, s.group) && |s.books.used| <= s.retry
    ensures var f := Loop(cfg, script, n, s, last).0; |f.books.used| <= f.retry + 1
    decreases if s.retry <= cfg.retryTimes then Budget(cfg, s) + 1 else 0
  {
    if s.retry <= cfg.retryTimes {
      SteadyTurn(cfg, script(n), s);
      var (s', next) := Attempt(cfg, script(n), s);
      if next.Again? {
        AgainSpends(cfg, script(n), s);
        SteadyLoop(cfg, script, n + 1, IncreaseRetry(s'), Some(next.error));
      }
    }
  }

  /** A failed run that used several channels shows as "no available channel". */
  predicate Hides(cfg: Config, script: nat -> Turn) {
    var r := Run(cfg, script);
    r.outcome.Failed? && |r.books.used| > 1 ==> r.response == Some(UNAVAILABLE)
  }

  const FINAL := ApiError(400, "bad_response", true)

  lemma FinalStops(cfg: Config, t: Turn, left: int)
    ensures !IsRateLimit(FINAL) && !IsAuthError(FINAL) && !ShouldRetry(cfg, t, FINAL, left)
  {
    assert FINAL.code[0] != "channel:invalid_key"[0] && FINAL.code[0] != "access_denied"[0] && FINAL.code[0] != "channel:"[0];
  }

  /** The first turn fails on the context's channel, the second as given. */
  function TwoTurns(second: Turn, third: Turn): nat -> Turn {
    (i: nat) => if i == 0 then FailingTurn(Everywhere()) else if i == 1 then second else third
  }

  function StoppingTurn(picks: nat -> Option<int>): Turn {
    FailingTurn(picks).(result := Some(FINAL))
  }

  function AfterFirst(cfg: Config): State {
    IncreaseRetry(Attempt(cfg, FailingTurn(Everywhere()), Start(cfg)).0)
  }

  lemma FirstTurn(cfg: Config, script: nat -> Turn)
    requires cfg.retryTimes >= 1 && script(0) == FailingTurn(Everywhere())
    ensures var s1 := AfterFirst(cfg);
            && Ready(s1) && s1.retry == 1 && s1.meta && s1.group == cfg.startGroup && |s1.books.used| == 1
            && Loop(cfg, script, 0, Start(cfg), None) == Loop(cfg, script, 1, s1, Some(RETRYABLE))
  {
    FailingTurnRetries(cfg, script(0), Start(cfg));
    AgainSpends(cfg, script(0), Start(cfg));
  }

  /** A selection that moves to the next group restarts the counter, and then the
      upstream's own error gets through. */
  lemma NextGroupShowsError(cfg: Config)
    requires cfg.groups.Auto? && cfg.retryTimes >= 1 && cfg.startGroup + 1 < cfg.groups.count
    ensures !Hides(cfg, TwoTurns(StoppingTurn(Skip(cfg.startGroup)), StoppingTurn(Everywhere())))
  {
    var t := StoppingTurn(Skip(cfg.startGroup));
    var script := TwoTurns(t, StoppingTurn(Everywhere()));
    var s1 := AfterFirst(cfg);
    FirstTurn(cfg, script);
    var moved := s1.(group := s1.group + 1, retry := 0);
    assert Walk(cfg, t, moved, s1.group, s1.group + 1) == (moved, Some(0));
    assert Select(cfg, t, s1) == (moved, Some(0));
    FinalStops(cfg, t, cfg.retryTimes);
    assert Attempt(cfg, t, s1).1 == Stop(FINAL);
  }

  /** So does cross-group retry when the last retry of a group is used. */
  lemma LastRetryShowsError(cfg: Config)
    requires cfg.groups.Auto? && cfg.groups.cross && cfg.retryTimes == 1 && cfg.startGroup < cfg.groups.count
    ensures !Hides(cfg, TwoTurns(StoppingTurn(Everywhere()), StoppingTurn(Everywhere())))
  {
    var t := StoppingTurn(Everywhere());
    var s1 := AfterFirst(cfg);
    FirstTurn(cfg, TwoTurns(t, t));
    assert Select(cfg, t, s1) == (s1.(group := s1.group + 1, retry := 0, reset := true), Some(0));
    FinalStops(cfg, t, cfg.retryTimes);
    assert Attempt(cfg, t, s1).1 == Stop(FINAL);
  }

  /** And a later selection that finds nothing shows its own error. */
  lemma EmptyGroupsShowError(cfg: Config)
    requires cfg.groups.Auto? && cfg.retryTimes >= 2 && cfg.startGroup + 1 == cfg.groups.count
    ensures !Hides(cfg, TwoTurns(FailingTurn(Everywhere()), FailingTurn(Skip(cfg.startGroup))))
  {
    var t1, t2 := FailingTurn(Everywhere()), FailingTurn(Skip(cfg.startGroup));
    var script := TwoTurns(t1, t2);
    var s1 := AfterFirst(cfg);
    FirstTurn(cfg, script);
    assert Select(cfg, t1, s1) == (s1, Some(0));
    FailingTurnRetries(cfg, t1, s1);
    AgainSpends(cfg, t1, s1);
    var s2 := IncreaseRetry(Attempt(cfg, t1, s1).0);
    var moved := s2.(group := s2.group + 1, retry := 0);
    assert Walk(cfg, t2, moved, s2.group, s2.group + 1) == (moved, None);
    assert Attempt(cfg, t2, s2) == (moved, Stop(NO_CHANNEL));
    assert Loop(cfg, script, 2, s2, Some(RETRYABLE)) == (moved, Failed(NO_CHANNEL));
  }

  /** Several attempts always show as "no available channel", exactly when there is
      one group, no retry, no automatic group left, or one left without cross-group
      retry and a single retry. */
  lemma FinalErrorIsExact(cfg: Config)
    ensures (forall script: nat -> Turn :: Hides(cfg, script)) <==>
            || cfg.groups.Plain? || cfg.retryTimes <= 0 || cfg.startGroup >= cfg.groups.count
            || (cfg.retryTimes == 1 && !cfg.groups.cross && cfg.startGroup + 1 >= cfg.groups.count)
  {
    if cfg.retryTimes <= 0 || Steady(cfg, cfg.startGroup) {
      forall script: nat -> Turn ensures Hides(cfg, script) {
        AttemptsAreBounded(cfg, script);
        if cfg.retryTimes > 0 {
          SteadyLoop(cfg, script, 0, Start(cfg), None);
        }
      }
    } else if cfg.startGroup + 1 < cfg.groups.count {
      NextGroupShowsError(cfg);
    } else if cfg.retryTimes == 1 {
      LastRetryShowsError(cfg);
    } else {
      EmptyGroupsShowError(cfg);
    }
  }

  /** Under every configuration and in every run, an upstream's authentication
      failure, by status or by code, shows as "no available channel", and no answer
      has a status the client would take for their own. */
  lemma NoAuthFailureLeaks(cfg: Config, script: nat -> Turn)
    ensures var r := Run(cfg, script);
            && (r.outcome.Failed? && IsAuthError(r.outcome.error) ==> r.response == Some(UNAVAILABLE))
            && (r.response.Some? ==> r.response.value.status != 401 && r.response.value.status != 403)
  {
    LoopKeeps(cfg, script, 0, Start(cfg), None);
    LoopErrors(cfg, script, 0, Start(cfg), None);
  }

  lemma {:induction false} LoopErrors(cfg: Config, script: nat -> Turn, n: nat, s: State, last: Option<ApiError>)
    requires Ready(s)
    ensures var outcome := Loop(cfg, script, n, s, last).1; outcome.Disconnected? ==> IsRateLimit(outcome.error)
    decreases if s.retry <= cfg.retryTimes then Budget(cfg, s) + 1 else 0
  {
    if s.retry <= cfg.retryTimes {
      var (s', next) := Attempt(cfg, script(n), s);
      if next.Again? {
        AgainSpends(cfg, script(n), s);
        LoopErrors(cfg, script, n + 1, IncreaseRetry(s'), Some(next.error));
      }
    }
  }

  // ---------- when a failed call is retried ----------

  /** When a handler's failure is followed by another turn. A rate limit has its own
      number of retries and ends when the client is gone; an authentication failure
      is retried while retries are left; anything else unless the channel affinity
      forbids it, for a channel's own error always, and for others only if retries are
      left, the channel is not pinned, and the error and its status allow it. */
  predicate Retried(cfg: Config, t: Turn, e: ApiError, retry: int) {
    if e.status == 429 then retry < cfg.rateLimitRetryTimes && !t.disconnected
    else if e.status == 401 || e.status == 403 || e.code == "channel:invalid_key" || e.code == "access_denied" then
      retry < cfg.retryTimes
    else
      && !t.affinitySkip
      && ("channel:" <= e.code
          || (&& retry < cfg.retryTimes && !cfg.specificChannel && !e.skipRetry
              && !(200 <= e.status <= 299)
              && (!(100 <= e.status <= 599) || (!cfg.alwaysSkipCode(e.code) && cfg.retryByStatus(e.status)))))
  }

  /** The turn calls the handler of the channel it has chosen. */
  predicate Calls(cfg: Config, t: Turn, s: State) {
    t.body == BodyOk && (s.meta ==> Select(cfg, t, s).1.Some? && t.setupError.None?)
  }

  /** The retry counter as the turn's selection leaves it. */
  function CounterAfter(cfg: Config, t: Turn, s: State): int {
    if s.meta then Select(cfg, t, s).0.retry else s.retry
  }

  lemma FailedCall(cfg: Config, t: Turn, s: State)
    requires Ready(s) && Calls(cfg, t, s) && t.result.Some?
    ensures var (s', next) := Attempt(cfg, t, s);
            var e := t.result.value;
            && s'.retry == CounterAfter(cfg, t, s) && |s'.books.used| == |s.books.used| + 1
            && (if Retried(cfg, t, e, s'.retry) then next == Again(e)
                else next == if e.status == 429 && t.disconnected && s'.retry < cfg.rateLimitRetryTimes then ClientGone(e) else Stop(e))
  {
    SelectMoves(cfg, t, s);
  }

  /** What a call leaves in the books: the channel is used, and its success or its
      failure recorded for it in both places, except that a rate limit leaves no record. */
  lemma CallIsRecorded(cfg: Config, t: Turn, s: State)
    requires Ready(s) && Calls(cfg, t, s)
    ensures var b, b' := s.books, Attempt(cfg, t, s).0.books;
            var channel := if s.meta then Select(cfg, t, s).1.value else cfg.contextChannel;
            var ok := if t.result.None? then multiset{channel} else multiset{};
            var bad := if t.result.Some? && t.result.value.status != 429 then multiset{channel} else multiset{};
            && b'.used == b.used + [channel]
            && b'.breakerOk == b.breakerOk + ok && b'.rateOk == b.rateOk + ok
            && b'.breakerFail == b.breakerFail + bad && b'.rateFail == b.rateFail + bad
  {
    SelectMoves(cfg, t, s);
  }

  /** The selection takes the first group, from the current one on, that has a channel.
      Passing over a group restarts the priorities; a cross-group request that has used
      up the priorities of the group it takes goes on to the next one afterwards. */
  lemma {:induction false} WalkTakesFirst(cfg: Config, t: Turn, s: State, start: nat, i: nat, k: nat)
    requires cfg.groups.Auto? && start <= i <= k < cfg.groups.count && (i > start ==> s.retry == 0)
    requires t.groupPick(k).Some? && forall j: nat :: i <= j < k ==> t.groupPick(j).None?
    ensures var retry := if k > i then 0 else s.retry;
            Walk(cfg, t, s, start, i) ==
            (if cfg.groups.cross && retry >= cfg.retryTimes
             then s.(group := k + 1, retry := 0, reset := true)
             else s.(group := k, retry := retry), t.groupPick(k))
    decreases k - i
  {
    if i < k {
      WalkTakesFirst(cfg, t, s.(group := i + 1, retry := 0), start, i + 1, k);
    }
  }

  lemma SelectionTakesFirst(cfg: Config, t: Turn, s: State, k: nat)
    requires cfg.groups.Auto? && s.group <= k < cfg.groups.count
    requires t.groupPick(k).Some? && forall j: nat :: s.group <= j < k ==> t.groupPick(j).None?
    ensures var (s', pick) := Select(cfg, t, s);
            var retry := if k > s.group then 0 else s.retry;
            && pick == t.groupPick(k)
            && s' == if cfg.groups.cross && retry >= cfg.retryTimes
                     then s.(group := k + 1, retry := 0, reset := true) else s.(group := k, retry := retry)
  {
    WalkTakesFirst(cfg, t, s, s.group, s.group, k);
  }

  lemma {:induction false} WalkFindsNone(cfg: Config, t: Turn, s: State, start: nat, i: nat)
    requires forall j: nat :: i <= j < GroupCount(cfg) ==> t.groupPick(j).None?
    ensures Walk(cfg, t, s, start, i).1.None?
    decreases GroupCount(cfg) - i
  {
    if i < GroupCount(cfg) {
      WalkFindsNone(cfg, t, s.(group := i + 1, retry := 0), start, i + 1);
    }
  }

  /** A handler's failure in any turn of any run: if it is to be retried the run goes on
      with the next turn, otherwise it ends there with that very error. */
  lemma FailureGoesOnOrEnds(cfg: Config, script: nat -> Turn, n: nat, s: State, last: Option<ApiError>)
    requires Ready(s) && s.retry <= cfg.retryTimes && Calls(cfg, script(n), s) && script(n).result.Some?
    ensures var e := script(n).result.value;
            var s' := Attempt(cfg, script(n), s).0;
            if Retried(cfg, script(n), e, CounterAfter(cfg, script(n), s))
            then Ready(IncreaseRetry(s')) && Loop(cfg, script, n, s, last) == Loop(cfg, script, n + 1, IncreaseRetry(s'), Some(e))
            else Loop(cfg, script, n, s, last).0 == s' && Loop(cfg, script, n, s, last).1 in {Failed(e), Disconnected(e)}
  {
    FailedCall(cfg, script(n), s);
    if Attempt(cfg, script(n), s).1.Again? {
      AgainSpends(cfg, script(n), s);
    }
  }

  /** A handler that succeeds ends the run. */
  lemma SuccessEnds(cfg: Config, script: nat -> Turn, n: nat, s: State, last: Option<ApiError>)
    requires Ready(s) && s.retry <= cfg.retryTimes && Calls(cfg, script(n), s) && script(n).result.None?
    ensures Loop(cfg, script, n, s, last).1 == Succeeded(script(n).settlement)
  {
  }

  /** A turn that calls no handler ends the run: without a channel, with the error of a
      channel that cannot be set up, or with 413 or 400 for a body that cannot be read. */
  lemma UnservedTurnEnds(cfg: Config, script: nat -> Turn, n: nat, s: State, last: Option<ApiError>)
    requires Ready(s) && s.retry <= cfg.retryTimes && !Calls(cfg, script(n), s)
    ensures var t := script(n);
            Loop(cfg, script, n, s, last).1 == Failed(
              if s.meta && Select(cfg, t, s).1.None? then ApiError(500, "get_channel_failed", true)
              else if s.meta && t.setupError.Some? then t.setupError.value
              else ApiError(if t.body == BodyTooLarge then 413 else 400, "read_request_body_failed", true))
  {
  }

  /** A run whose first call fails for good shows the upstream's own error, except that
      an authentication failure shows as "no available channel". */
  lemma LoneFailurePassesThrough(cfg: Config, script: nat -> Turn)
    requires cfg.retryTimes >= 0 && script(0).body == BodyOk && script(0).result.Some?
    requires !Retried(cfg, script(0), script(0).result.value, 0)
    ensures var e, r := script(0).result.value, Run(cfg, script);
            && r.books.used == [cfg.contextChannel]
            && r.response == Some(if e.status == 401 || e.status == 403 || e.code == "channel:invalid_key" || e.code == "access_denied"
                                  then (if r.outcome.Disconnected? then e else ApiError(503, "model_not_found", false)) else e)
  {
    FailureGoesOnOrEnds(cfg, script, 0, Start(cfg), None);
  }

  /** Any run that fails with the counter at zero and no authentication failure shows its
      last error; with the counter above zero it does not. */
  lemma CounterDecidesAnswer(cfg: Config, script: nat -> Turn)
    requires cfg.retryTimes >= 0
    ensures var r := Run(cfg, script);
            r.outcome.Failed? && !IsAuthError(r.outcome.error) ==>
              r.response == Some(if r.retry == 0 then r.outcome.error else ApiError(503, "model_not_found", false))
  {
    LoopKeeps(cfg, script, 0, Start(cfg), None);
    CounterNeverNegative(cfg, script, 0, Start(cfg), None);
  }

  lemma {:induction false} CounterNeverNegative(cfg: Config, script: nat -> Turn, n: nat, s: State, last: Option<ApiError>)
    requires Ready(s)
    ensures Loop(cfg, script, n, s, last).0.retry >= 0
    decreases if s.retry <= cfg.retryTimes then Budget(cfg, s) + 1 else 0
  {
    if s.retry <= cfg.retryTimes {
      SelectMoves(cfg, script(n), s);
      var (s', next) := Attempt(cfg, script(n), s);
      if next.Again? {
        AgainSpends(cfg, script(n), s);
        CounterNeverNegative(cfg, script, n + 1, IncreaseRetry(s'), Some(next.error));
      }
    }
  }

  // ---------- what counts as misuse of a slot ----------

  /** The books notice a slot taken on top of another, one given back that is not held or
      is another channel's, and never forget it; one taken and given back leaves no mark. */
  lemma MisuseIsNoticed(b: Books, c: int, d: int, selected: bool)
    ensures Acquire(Acquire(b, c), d).fault
    ensures b.held != Some(c) ==> Release(b, c, true).fault
    ensures b.fault ==> Acquire(b, c).fault && Release(b, c, selected).fault
    ensures b.held.None? ==> Release(Acquire(b, c), c, true) == b && Release(b, c, false) == b
  {
  }

  // ---------- a slot that leaks ----------

  /** One retry whose picked channel cannot be set up ends with that channel's slot
      still taken, under every configuration that has a channel to pick. */
  lemma SetupFailureLeaksSlot(cfg: Config)
    requires cfg.retryTimes >= 1 && (cfg.groups.Auto? ==> cfg.startGroup < cfg.groups.count)
    ensures var broken := FailingTurn(Everywhere()).(setupError := Some(FINAL));
            Run(cfg, TwoTurns(broken, broken)).books.held == Some(0)
  {
    var broken := FailingTurn(Everywhere()).(setupError := Some(FINAL));
    var script := TwoTurns(broken, broken);
    FirstTurn(cfg, script);
    var s1 := AfterFirst(cfg);
    assert Select(cfg, broken, s1).1 == Some(0);
    assert Attempt(cfg, broken, s1).1 == Stop(FINAL);
  }
}
