/** One request's billing session: quota is taken in advance from a token and from
    a wallet or subscription, then settled at the real price or given back. Every
    write can fail, as the inputs say. */
module Billing {
  import opened Common

  /** The user's funding source and token; `lost` adds up token quota taken by
      openings that failed and could not be rolled back. */
  datatype Accounts = Accounts(funds: int, token: int, lost: int)

  datatype Source = Wallet | Subscription

  datatype Session = Session(
    source: Source,
    preConsumed: int,
    tokenConsumed: int,
    consumed: int,       // taken from the funding source when the session was opened or, in a wallet, extended
    extraReserved: int,
    trusted: bool,
    fundingSettled: bool,
    settled: bool,
    refunded: bool)

  /** One way to open a session. `refused` is any failure before money moves. */
  datatype Try = Try(source: Source, quota: nat, trusted: bool, refused: bool, fundingFails: bool, rollbackFails: bool)

  datatype Settlement = Settlement(quota: int, fundingFails: bool, tokenFails: bool)

  datatype Reservation = Reservation(target: int, fundingFails: bool, tokenFails: bool, rollbackFails: bool)

  datatype RefundFaults = RefundFaults(funding: bool, extra: bool, token: bool)

  /** Token quota is untouched in the playground. */
  function TakeToken(a: Accounts, playground: bool, amount: int): Accounts {
    if playground then a else a.(token := a.token - amount)
  }

  // ---------- opening ----------

  /** A subscription takes at least one unit and never trusts; a trusted wallet
      takes nothing in advance. */
  function Advance(t: Try): nat {
    if t.source.Subscription? then (if t.quota == 0 then 1 else t.quota) else if t.trusted then 0 else t.quota
  }

  function Fresh(t: Try): Session {
    var n := Advance(t);
    Session(t.source, n, n, n, 0, t.source.Wallet? && t.trusted, false, false, false)
  }

  function TryOpen(a: Accounts, playground: bool, t: Try): (Accounts, Option<Session>) {
    var n := Advance(t);
    if t.refused then (a, None)
    else if n > 0 && t.fundingFails then
      (if !playground && t.rollbackFails then a.(token := a.token - n, lost := a.lost + n) else a, None)
    else (TakeToken(a, playground, n).(funds := a.funds - n), Some(Fresh(t)))
  }

  /** The user's preference lists the ways to try, in order. */
  function Open(a: Accounts, playground: bool, tries: seq<Try>): (Accounts, Option<Session>)
    decreases tries
  {
    if tries == [] then (a, None)
    else
      var (a1, s) := TryOpen(a, playground, tries[0]);
      if s.Some? then (a1, s) else Open(a1, playground, tries[1..])
  }

  // ---------- using a session ----------

  function SettleOn(a: Accounts, playground: bool, s: Session, m: Settlement): (Accounts, Session) {
    var delta := m.quota - s.preConsumed;
    if s.settled then (a, s)
    else if delta == 0 then (a, s.(settled := true))
    else if !s.fundingSettled && m.fundingFails then (a, s)
    else
      var a1 := if s.fundingSettled then a else a.(funds := a.funds - delta);
      (if m.tokenFails then a1 else TakeToken(a1, playground, delta), s.(fundingSettled := true, settled := true))
  }

  function ReserveOn(a: Accounts, playground: bool, s: Session, r: Reservation): (Accounts, Session) {
    var delta := r.target - s.preConsumed;
    if s.settled || s.refunded || s.trusted || delta <= 0 || r.fundingFails then (a, s)
    else
      var a1 := a.(funds := a.funds - delta);
      var s1 := if s.source.Wallet? then s.(consumed := s.consumed + delta) else s;
      if !playground && r.tokenFails then (if r.rollbackFails then (a1, s1) else (a, s))
      else
        (TakeToken(a1, playground, delta),
         s1.(preConsumed := s.preConsumed + delta, tokenConsumed := s.tokenConsumed + delta,
             extraReserved := s.extraReserved + delta))
  }

  predicate NeedsRefund(s: Session) {
    !s.settled && !s.refunded && !s.fundingSettled
    && (s.tokenConsumed > 0 || (s.source.Subscription? && s.consumed > 0))
  }

  function RefundOn(a: Accounts, playground: bool, s: Session, f: RefundFaults): (Accounts, Session) {
    if !NeedsRefund(s) then (a, s)
    else
      var base := if s.consumed > 0 && !f.funding then s.consumed else 0;
      var extra := if s.source.Subscription? && s.extraReserved > 0 && !f.extra then s.extraReserved else 0;
      var token := if s.tokenConsumed > 0 && !f.token then s.tokenConsumed else 0;
      (TakeToken(a.(funds := a.funds + base + extra), playground, -token), s.(refunded := true))
  }

  /** The session as the code keeps it, an object updated in place next to the
      accounts in the database. */
  class BillingSession {
    var session: Session
    var accounts: Accounts
    const playground: bool

    constructor (session: Session, accounts: Accounts, playground: bool)
      ensures this.session == session && this.accounts == accounts && this.playground == playground
    {
      this.session, this.accounts, this.playground := session, accounts, playground;
    }

    method Settle(m: Settlement) returns (ok: bool)
      modifies this
      ensures (accounts, session) == SettleOn(old(accounts), playground, old(session), m)
      ensures !ok ==> !session.settled || (m.tokenFails && !playground)
    {
      if session.settled {
        return true;
      }
      var delta := m.quota - session.preConsumed;
      if delta == 0 {
        session := session.(settled := true);
        return true;
      }
      if !session.fundingSettled {
        if m.fundingFails {
          return false;
        }
        accounts := accounts.(funds := accounts.funds - delta);
        session := session.(fundingSettled := true);
      }
      ok := true;
      if !playground {
        if m.tokenFails {
          ok := false;
        } else {
          accounts := accounts.(token := accounts.token - delta);
        }
      }
      session := session.(settled := true);
    }

    method Reserve(r: Reservation)
      modifies this
      ensures (accounts, session) == ReserveOn(old(accounts), playground, old(session), r)
    {
      if session.settled || session.refunded || session.trusted || r.target <= session.preConsumed {
        return;
      }
      var delta := r.target - session.preConsumed;
      if r.fundingFails {
        return;
      }
      accounts := accounts.(funds := accounts.funds - delta);
      if session.source.Wallet? {
        session := session.(consumed := session.consumed + delta);
      }
      if !playground {
        if r.tokenFails {
          if !r.rollbackFails {
            accounts := accounts.(funds := accounts.funds + delta);
            if session.source.Wallet? {
              session := session.(consumed := session.consumed - delta);
            }
          }
          return;
        }
        accounts := accounts.(token := accounts.token - delta);
      }
      session := session.(preConsumed := session.preConsumed + delta, tokenConsumed := session.tokenConsumed + delta,
                          extraReserved := session.extraReserved + delta);
    }

    method Refund(f: RefundFaults)
      modifies this
      ensures (accounts, session) == RefundOn(old(accounts), playground, old(session), f)
    {
      if !NeedsRefund(session) {
        return;
      }
      session := session.(refunded := true);
      if session.consumed > 0 && !f.funding {
        accounts := accounts.(funds := accounts.funds + session.consumed);
      }
      if session.extraReserved > 0 && session.source.Subscription? && !f.extra {
        accounts := accounts.(funds := accounts.funds + session.extraReserved);
      }
      if session.tokenConsumed > 0 && !playground && !f.token {
        accounts := accounts.(token := accounts.token + session.tokenConsumed);
      }
    }
  }

  // ---------- the ledger of a session ----------

  datatype Op = Settle(settlement: Settlement) | Reserve(reservation: Reservation) | Refund(faults: RefundFaults)

  function Apply(a: Accounts, playground: bool, s: Session, op: Op): (Accounts, Session) {
    match op
    case Settle(m) => SettleOn(a, playground, s, m)
    case Reserve(r) => ReserveOn(a, playground, s, r)
    case Refund(f) => RefundOn(a, playground, s, f)
  }

  function ApplyAll(a: Accounts, playground: bool, s: Session, ops: seq<Op>): (Accounts, Session)
    decreases ops
  {
    if ops == [] then (a, s)
    else var (a1, s1) := Apply(a, playground, s, ops[0]); ApplyAll(a1, playground, s1, ops[1..])
  }

  /** The quota of the first settlement, if there is one. */
  function FirstSettled(ops: seq<Op>): Option<int> {
    if ops == [] then None else if ops[0].Settle? then Some(ops[0].settlement.quota) else FirstSettled(ops[1..])
  }

  /** The session after a reservation that goes through. */
  function Extended(s: Session, target: int): Session {
    if s.trusted || target <= s.preConsumed then s
    else
      var delta := target - s.preConsumed;
      s.(preConsumed := target, tokenConsumed := s.tokenConsumed + delta, extraReserved := s.extraReserved + delta,
         consumed := if s.source.Wallet? then s.consumed + delta else s.consumed)
  }

  /** What the user should have paid after `ops`: the first settlement's quota if
      there is one, else nothing if an advance was refunded, else the advance. */
  function Due(s: Session, ops: seq<Op>): int
    decreases ops
  {
    if FirstSettled(ops).Some? then FirstSettled(ops).value
    else if ops == [] then s.preConsumed
    else
      match ops[0]
      case Settle(m) => m.quota
      case Refund(_) => if s.preConsumed > 0 then 0 else Due(s, ops[1..])
      case Reserve(r) => Due(Extended(s, r.target), ops[1..])
  }

  predicate Faultless(op: Op) {
    match op
    case Settle(m) => !m.fundingFails && !m.tokenFails
    case Reserve(r) => !r.fundingFails && !r.tokenFails
    case Refund(f) => !f.funding && !f.extra && !f.token
  }

  /** The session is unused and holds what it took from the accounts. */
  predicate Holds(s: Session) {
    && !s.settled && !s.refunded && !s.fundingSettled && s.preConsumed >= 0
    && s.tokenConsumed == s.preConsumed && s.extraReserved >= 0
    && s.preConsumed == s.consumed + (if s.source.Subscription? then s.extraReserved else 0)
    && (s.source.Subscription? ==> s.consumed > 0)
  }

  /** A settled session is final: nothing done to it later moves any money. */
  lemma {:induction false} SettledIsFinal(a: Accounts, playground: bool, s: Session, ops: seq<Op>)
    requires s.settled
    ensures ApplyAll(a, playground, s, ops) == (a, s)
    decreases ops
  {
    if ops != [] {
      SettledIsFinal(a, playground, s, ops[1..]);
    }
  }

  /** A refunded session ignores everything but a settlement, and that takes the
      difference to an advance that has been given back. */
  lemma {:induction false} AfterRefund(a: Accounts, playground: bool, s: Session, ops: seq<Op>)
    requires s.refunded && !s.settled && !s.fundingSettled && forall i :: 0 <= i < |ops| ==> Faultless(ops[i])
    ensures var a' := ApplyAll(a, playground, s, ops).0;
            var charged := if FirstSettled(ops).Some? then FirstSettled(ops).value - s.preConsumed else 0;
            a.funds - a'.funds == charged && a.token - a'.token == if playground then 0 else charged
    decreases ops
  {
    if ops != [] {
      var (a1, s1) := Apply(a, playground, s, ops[0]);
      assert Faultless(ops[0]);
      if ops[0].Settle? {
        SettledIsFinal(a1, playground, s1, ops[1..]);
      } else {
        assert forall i :: 0 <= i < |ops[1..]| ==> ops[1..][i] == ops[i + 1];
        AfterRefund(a1, playground, s1, ops[1..]);
      }
    }
  }

  /** Some settlement comes after a refund of a non-empty advance. */
  predicate SettlesAfterRefund(s: Session, ops: seq<Op>)
    decreases ops
  {
    ops != [] &&
    match ops[0]
    case Settle(_) => false
    case Refund(_) => if s.preConsumed > 0 then FirstSettled(ops[1..]).Some? else SettlesAfterRefund(s, ops[1..])
    case Reserve(r) => SettlesAfterRefund(Extended(s, r.target), ops[1..])
  }

  lemma ReserveExtends(a: Accounts, playground: bool, s: Session, r: Reservation)
    requires Holds(s) && Faultless(Reserve(r))
    ensures var (a1, s1) := ReserveOn(a, playground, s, r);
            && s1 == Extended(s, r.target) && Holds(s1)
            && a1.funds + s1.preConsumed == a.funds + s.preConsumed
            && a.token - a1.token == if playground then 0 else a.funds - a1.funds
  {
  }

  lemma RefundGivesBack(a: Accounts, playground: bool, s: Session, f: RefundFaults)
    requires Holds(s) && Faultless(Refund(f))
    ensures var (a1, s1) := RefundOn(a, playground, s, f);
            && a1.funds == a.funds + s.preConsumed
            && a.token - a1.token == (if playground then 0 else -s.preConsumed)
            && (s.preConsumed == 0 ==> s1 == s)
            && (s.preConsumed > 0 ==> s1 == s.(refunded := true))
  {
  }

  /** Over every sequence of operations that go through, the user has paid what is
      due, from the funds and from the token, exactly when nothing is settled
      after it was refunded. */
  lemma {:induction false} SessionIsExact(a: Accounts, playground: bool, s: Session, ops: seq<Op>)
    requires Holds(s) && forall i :: 0 <= i < |ops| ==> Faultless(ops[i])
    ensures var a' := ApplyAll(a, playground, s, ops).0;
            && (a.funds + s.preConsumed - a'.funds == Due(s, ops) <==> !SettlesAfterRefund(s, ops))
            && (a.token - a'.token == if playground then 0 else a.funds - a'.funds)
    decreases ops
  {
    if ops != [] {
      var (a1, s1) := Apply(a, playground, s, ops[0]);
      assert Faultless(ops[0]);
      assert forall i :: 0 <= i < |ops[1..]| ==> ops[1..][i] == ops[i + 1];
      match ops[0]
      case Settle(m) => SettledIsFinal(a1, playground, s1, ops[1..]);
      case Refund(f) =>
        RefundGivesBack(a, playground, s, f);
        if s.preConsumed > 0 {
          AfterRefund(a1, playground, s1, ops[1..]);
        } else {
          SessionIsExact(a1, playground, s1, ops[1..]);
        }
      case Reserve(r) =>
        ReserveExtends(a, playground, s, r);
        SessionIsExact(a1, playground, s1, ops[1..]);
    }
  }

  // ---------- what each step takes ----------

  /** What a way of opening takes in advance. */
  function Needed(t: Try): nat {
    match t.source
    case Subscription => if t.quota < 1 then 1 else t.quota
    case Wallet => if t.trusted then 0 else t.quota
  }

  /** A way of opening works unless it is refused or what it needs cannot be taken. */
  predicate Opens(t: Try) {
    !t.refused && (Needed(t) == 0 || !t.fundingFails)
  }

  /** One way of opening: it takes what it needs from funds and token, or nothing, except
      that a lost rollback leaves the token short. */
  lemma OpeningTakes(a: Accounts, playground: bool, t: Try)
    ensures var (a', s) := TryOpen(a, playground, t);
            var n := Needed(t);
            var stuck := !t.refused && !Opens(t) && !playground && t.rollbackFails;
            && (s.Some? <==> Opens(t))
            && (Opens(t) ==>
                  && s.value == Session(t.source, n, n, n, 0, t.source.Wallet? && t.trusted, false, false, false)
                  && a' == Accounts(a.funds - n, if playground then a.token else a.token - n, a.lost))
            && (!Opens(t) ==> a' == if stuck then Accounts(a.funds, a.token - n, a.lost + n) else a)
  {
  }

  /** Of several ways the first that works is used. */
  lemma {:induction false} FirstWayOpens(a: Accounts, playground: bool, tries: seq<Try>, k: nat)
    requires k <= |tries| && forall j :: 0 <= j < k ==> !Opens(tries[j])
    requires k < |tries| ==> Opens(tries[k])
    ensures var (a', s) := Open(a, playground, tries);
            if k == |tries| then s.None? && a'.funds == a.funds
            else s.Some? && s.value.source == tries[k].source && s.value.preConsumed == Needed(tries[k])
                 && a'.funds == a.funds - Needed(tries[k])
    decreases tries
  {
    if tries != [] {
      OpeningTakes(a, playground, tries[0]);
      if k > 0 {
        assert forall j :: 0 <= j < k - 1 ==> tries[1..][j] == tries[j + 1];
        FirstWayOpens(TryOpen(a, playground, tries[0]).0, playground, tries[1..], k - 1);
      }
    }
  }

  /** A settlement of an unsettled session: without a difference it only closes it; the
      funds are moved once, and the token after them if its own write works. */
  lemma SettlementTakes(a: Accounts, playground: bool, s: Session, m: Settlement)
    requires !s.settled
    ensures var (a', s') := SettleOn(a, playground, s, m);
            var delta := m.quota - s.preConsumed;
            var stops := delta != 0 && !s.fundingSettled && m.fundingFails;
            && s' == (if stops then s else s.(settled := true, fundingSettled := s.fundingSettled || delta != 0))
            && a'.funds == a.funds - (if stops || s.fundingSettled then 0 else delta)
            && a'.token == a.token - (if stops || m.tokenFails || playground then 0 else delta)
            && a'.lost == a.lost
  {
  }

  /** A reservation takes the difference to a higher target, unless the session is used or
      trusted. If the token then refuses, it takes nothing, unless the rollback is lost too:
      then the funds stay short, which a wallet remembers. */
  lemma ReservationTakes(a: Accounts, playground: bool, s: Session, r: Reservation)
    ensures var (a', s') := ReserveOn(a, playground, s, r);
            var delta := r.target - s.preConsumed;
            var starts := !s.settled && !s.refunded && !s.trusted && r.target > s.preConsumed && !r.fundingFails;
            var works := starts && (playground || !r.tokenFails);
            var stuck := starts && !works && r.rollbackFails;
            && a'.funds == a.funds - (if works || stuck then delta else 0)
            && a'.token == a.token - (if works && !playground then delta else 0)
            && a'.lost == a.lost
            && s' == s.(consumed := s.consumed + (if (works || stuck) && s.source.Wallet? then delta else 0),
                        preConsumed := s.preConsumed + (if works then delta else 0),
                        tokenConsumed := s.tokenConsumed + (if works then delta else 0),
                        extraReserved := s.extraReserved + (if works then delta else 0))
  {
  }

  /** A refund happens once, to a session not settled that has something to give back, and
      then each part is returned if it is positive and its own write works. */
  lemma RefundReturns(a: Accounts, playground: bool, s: Session, f: RefundFaults)
    ensures var (a', s') := RefundOn(a, playground, s, f);
            var due := && !s.settled && !s.refunded && !s.fundingSettled
                       && (s.tokenConsumed > 0 || (s.source == Subscription && s.consumed > 0));
            && s' == (if due then s.(refunded := true) else s)
            && a'.funds == a.funds + (if due && !f.funding && s.consumed > 0 then s.consumed else 0)
                                   + (if due && !f.extra && s.source == Subscription && s.extraReserved > 0 then s.extraReserved else 0)
            && a'.token == a.token + (if due && !f.token && s.tokenConsumed > 0 && !playground then s.tokenConsumed else 0)
            && a'.lost == a.lost
  {
  }

  // ---------- a request's bill ----------

  /** The accounts and the session, if one has been opened. */
  datatype Bill = Bill(accounts: Accounts, session: Option<Session>)

  /** A bill opens its session at most once. */
  function OpenBill(b: Bill, playground: bool, tries: seq<Try>): Bill {
    if b.session.Some? then b else var (a, s) := Open(b.accounts, playground, tries); Bill(a, s)
  }

  /** Without a session the price is charged directly. */
  function SettleBill(b: Bill, playground: bool, m: Settlement): Bill {
    if b.session.Some? then
      var (a, s) := SettleOn(b.accounts, playground, b.session.value, m);
      Bill(a, Some(s))
    else if m.quota == 0 || m.fundingFails then b
    else
      var a := b.accounts.(funds := b.accounts.funds - m.quota);
      b.(accounts := if m.tokenFails then a else TakeToken(a, playground, m.quota))
  }

  function RefundBill(b: Bill, playground: bool, f: RefundFaults): Bill {
    if b.session.None? then b
    else
      var (a, s) := RefundOn(b.accounts, playground, b.session.value, f);
      Bill(a, Some(s))
  }

  /** What has been taken in advance. */
  function Advanced(b: Bill): int {
    if b.session.Some? then b.session.value.preConsumed else 0
  }

  function FundsCharged(a: Accounts, b: Bill): int {
    a.funds - b.accounts.funds
  }

  /** Token quota charged for the request, apart from what failed openings lost. */
  function TokenCharged(a: Accounts, b: Bill): int {
    a.token - b.accounts.token - (b.accounts.lost - a.lost)
  }

  /** Starting from accounts `a`, exactly the advance has been taken so far. */
  predicate Pending(a: Accounts, playground: bool, b: Bill) {
    && (b.session.Some? ==> Holds(b.session.value) && b.session.value.extraReserved == 0)
    && FundsCharged(a, b) == Advanced(b)
    && TokenCharged(a, b) == if playground then 0 else Advanced(b)
  }

  lemma {:induction false} OpenIsPending(a0: Accounts, a: Accounts, playground: bool, tries: seq<Try>)
    requires Pending(a0, playground, Bill(a, None))
    ensures var (a', s) := Open(a, playground, tries); Pending(a0, playground, Bill(a', s))
    decreases tries
  {
    if tries != [] {
      var (a1, s) := TryOpen(a, playground, tries[0]);
      if s.None? {
        OpenIsPending(a0, a1, playground, tries[1..]);
      }
    }
  }

  lemma OpeningKeepsPending(a: Accounts, playground: bool, b: Bill, tries: seq<Try>)
    requires Pending(a, playground, b)
    ensures Pending(a, playground, OpenBill(b, playground, tries))
  {
    if b.session.None? {
      OpenIsPending(a, b.accounts, playground, tries);
    }
  }

  /** Settling a pending bill charges the price exactly when the difference to the
      advance is zero or its writes go through. */
  lemma SettlingIsExact(a: Accounts, playground: bool, b: Bill, m: Settlement)
    requires Pending(a, playground, b)
    ensures var b' := SettleBill(b, playground, m);
            && (FundsCharged(a, b') == m.quota <==> m.quota == Advanced(b) || !m.fundingFails)
            && (TokenCharged(a, b') == (if playground then 0 else m.quota) <==>
                playground || m.quota == Advanced(b) || (!m.fundingFails && !m.tokenFails))
  {
  }

  /** Refunding a pending bill leaves nothing charged exactly when nothing was taken
      or its writes go through. */
  lemma RefundingIsExact(a: Accounts, playground: bool, b: Bill, f: RefundFaults)
    requires Pending(a, playground, b)
    ensures var b' := RefundBill(b, playground, f);
            && (FundsCharged(a, b') == 0 <==> Advanced(b) == 0 || !f.funding)
            && (TokenCharged(a, b') == 0 <==> playground || Advanced(b) == 0 || !f.token)
  {
  }
}
