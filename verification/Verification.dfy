/** The verification-code table. Entries share one map under the concatenation of
    purpose and key, and a registration that makes the map too large throws out
    the expired ones. The theorems compare it with a table keyed by the pair
    that never forgets anything. Times are nanoseconds. */
module Verification {

  datatype Entry = Entry(code: string, time: int)

  const NANOS := 1_000_000_000

  /** Whole seconds of a duration, truncated toward zero. */
  function Seconds(nanos: int): int {
    if nanos >= 0 then nanos / NANOS else -((-nanos) / NANOS)
  }

  predicate Expired(e: Entry, now: int, validMinutes: int) {
    Seconds(now - e.time) >= validMinutes * 60
  }

  /** The verdict on a looked-up entry. */
  predicate Accepts(e: Entry, code: string, now: int, validMinutes: int) {
    !Expired(e, now, validMinutes) && code == e.code
  }

  function RemoveExpired(m: map<string, Entry>, now: int, validMinutes: int): map<string, Entry> {
    map k | k in m && !Expired(m[k], now, validMinutes) :: m[k]
  }

  class VerificationTable {
    var entries: map<string, Entry>
    const maxSize: int
    const validMinutes: int

    constructor (maxSize: int, validMinutes: int)
      ensures entries == map[] && this.maxSize == maxSize && this.validMinutes == validMinutes
    {
      entries, this.maxSize, this.validMinutes := map[], maxSize, validMinutes;
    }

    /** `now` is the clock when the entry is written, `later` when the purge starts. */
    method Register(key: string, code: string, purpose: string, now: int, later: int)
      modifies this`entries
      ensures entries == RegisterOn(old(entries), Config(maxSize, validMinutes), key, code, purpose, now, later)
      ensures |old(entries)[purpose + key := Entry(code, now)]| <= maxSize ==>
                entries == old(entries)[purpose + key := Entry(code, now)]
      ensures |old(entries)[purpose + key := Entry(code, now)]| > maxSize ==>
                forall k :: k in entries ==> !Expired(entries[k], later, validMinutes)
    {
      entries := entries[purpose + key := Entry(code, now)];
      if |entries| > maxSize {
        RemoveExpiredPairs(later);
      }
    }

    method Verify(key: string, code: string, purpose: string, now: int) returns (ok: bool)
      ensures ok <==> purpose + key in entries && Accepts(entries[purpose + key], code, now, validMinutes)
    {
      if purpose + key !in entries || Seconds(now - entries[purpose + key].time) >= validMinutes * 60 {
        return false;
      }
      return code == entries[purpose + key].code;
    }

    method DeleteKey(key: string, purpose: string)
      modifies this`entries
      ensures entries == old(entries) - {purpose + key}
    {
      entries := entries - {purpose + key};
    }

    method RemoveExpiredPairs(now: int)
      modifies this`entries
      ensures entries == RemoveExpired(old(entries), now, validMinutes)
    {
      var pending := entries.Keys;
      while pending != {}
        invariant pending <= old(entries).Keys
        invariant entries == map k | k in old(entries) && (k in pending || !Expired(old(entries)[k], now, validMinutes)) :: old(entries)[k]
        decreases pending
      {
        var key :| key in pending;
        if Seconds(now - entries[key].time) >= validMinutes * 60 {
          entries := entries - {key};
        }
        pending := pending - {key};
      }
    }
  }

  // ---------- runs ----------

  datatype Config = Config(maxSize: int, validMinutes: int)

  datatype Op =
    | Register(key: string, code: string, purpose: string, now: int, later: int)
    | Verify(key: string, code: string, purpose: string, now: int)
    | Delete(key: string, purpose: string, now: int)

  function RegisterOn(m: map<string, Entry>, c: Config, key: string, code: string, purpose: string, now: int, later: int)
    : map<string, Entry>
  {
    var m1 := m[purpose + key := Entry(code, now)];
    if |m1| > c.maxSize then RemoveExpired(m1, later, c.validMinutes) else m1
  }

  function Step(m: map<string, Entry>, c: Config, op: Op): (map<string, Entry>, bool) {
    match op
    case Register(key, code, purpose, now, later) => (RegisterOn(m, c, key, code, purpose, now, later), true)
    case Verify(key, code, purpose, now) =>
      (m, purpose + key in m && Accepts(m[purpose + key], code, now, c.validMinutes))
    case Delete(key, purpose, _) => (m - {purpose + key}, true)
  }

  type Ideal = map<(string, string), Entry>

  /** Fewer whole seconds have passed than the entry is valid for. Whole seconds are
      cut toward zero, which matters only if codes are not valid at all. */
  predicate StillGood(time: int, now: int, validMinutes: int) {
    if validMinutes > 0 then now - time < validMinutes * 60_000_000_000
    else now - time <= validMinutes * 60_000_000_000 - 1_000_000_000
  }

  function IdealStep(m: Ideal, c: Config, op: Op): (Ideal, bool) {
    match op
    case Register(key, code, purpose, now, _) => (m[(purpose, key) := Entry(code, now)], true)
    case Verify(key, code, purpose, now) =>
      (m, (purpose, key) in m && m[(purpose, key)].code == code && StillGood(m[(purpose, key)].time, now, c.validMinutes))
    case Delete(key, purpose, _) => (m - {(purpose, key)}, true)
  }

  function Table(ops: seq<Op>, c: Config): map<string, Entry> {
    if ops == [] then map[] else Step(Table(ops[..|ops| - 1], c), c, ops[|ops| - 1]).0
  }

  function IdealTable(ops: seq<Op>, c: Config): Ideal {
    if ops == [] then map[] else IdealStep(IdealTable(ops[..|ops| - 1], c), c, ops[|ops| - 1]).0
  }

  /** The clock never goes back, and every purpose is one of `purposes`. */
  ghost predicate Proper(ops: seq<Op>, purposes: set<string>) {
    && (forall i :: 0 <= i < |ops| ==> ops[i].purpose in purposes && ops[i].now <= End(ops[i]))
    && (forall i, j :: 0 <= i < j < |ops| ==> End(ops[i]) <= ops[j].now)
  }

  function End(op: Op): int {
    if op.Register? then op.later else op.now
  }

  /** The answer to the last operation of a run is the ideal table's answer. */
  ghost predicate AnswersAlike(ops: seq<Op>, c: Config)
    requires ops != []
  {
    var before, last := ops[..|ops| - 1], ops[|ops| - 1];
    Step(Table(before, c), c, last).1 == IdealStep(IdealTable(before, c), c, last).1
  }

  predicate PrefixFree(purposes: set<string>) {
    forall p, q :: p in purposes && q in purposes && p <= q ==> p == q
  }

  // ---------- the simulation ----------

  lemma ExpiryIsMonotone(e: Entry, now: int, later: int, validMinutes: int)
    requires now <= later && Expired(e, now, validMinutes)
    ensures Expired(e, later, validMinutes)
  {
  }

  lemma GoodUntilExpired(e: Entry, now: int, validMinutes: int)
    ensures StillGood(e.time, now, validMinutes) <==> !Expired(e, now, validMinutes)
  {
    SecondsOf(now - e.time, validMinutes * 60);
  }

  lemma SecondsOf(nanos: int, limit: int)
    ensures Seconds(nanos) < limit <==> if limit > 0 then nanos < limit * NANOS else nanos <= (limit - 1) * NANOS
  {
  }

  lemma PairsAreDistinct(p: string, k: string, q: string, l: string)
    requires p + k == q + l
    ensures p <= q || q <= p
    ensures p == q ==> k == l
  {
    assert p == (p + k)[..|p|] && q == (q + l)[..|q|];
    assert k == (p + k)[|p|..] && l == (q + l)[|q|..];
  }

  /** Both tables hold the same entries, except that the real one may lack
      entries that have expired. */
  ghost predicate Simulates(m: map<string, Entry>, ideal: Ideal, purposes: set<string>, c: Config, now: int) {
    && (forall p, k :: p in purposes && p + k in m ==> (p, k) in ideal && ideal[(p, k)] == m[p + k])
    && (forall p, k :: p in purposes && (p, k) in ideal && p + k !in m ==> Expired(ideal[(p, k)], now, c.validMinutes))
  }

  lemma StepSimulates(m: map<string, Entry>, ideal: Ideal, purposes: set<string>, c: Config, op: Op)
    requires PrefixFree(purposes) && op.purpose in purposes && op.now <= End(op)
    requires Simulates(m, ideal, purposes, c, op.now)
    ensures Simulates(Step(m, c, op).0, IdealStep(ideal, c, op).0, purposes, c, End(op))
    ensures Step(m, c, op).1 == IdealStep(ideal, c, op).1
  {
    var m', ideal' := Step(m, c, op).0, IdealStep(ideal, c, op).0;
    if op.Verify? && (op.purpose, op.key) in ideal {
      GoodUntilExpired(ideal[(op.purpose, op.key)], op.now, c.validMinutes);
    }
    forall p, k | p in purposes ensures p + k == op.purpose + op.key ==> (p, k) == (op.purpose, op.key) {
      if p + k == op.purpose + op.key {
        PairsAreDistinct(p, k, op.purpose, op.key);
      }
    }
    forall p, k | p in purposes && (p, k) in ideal' && p + k !in m'
      ensures Expired(ideal'[(p, k)], End(op), c.validMinutes)
    {
      if (p, k) in ideal && p + k !in m && (p, k) != (op.purpose, op.key) {
        ExpiryIsMonotone(ideal[(p, k)], op.now, End(op), c.validMinutes);
      }
    }
  }

  lemma {:induction false} TableSimulates(ops: seq<Op>, purposes: set<string>, c: Config, now: int)
    requires PrefixFree(purposes) && Proper(ops, purposes) && (ops != [] ==> End(ops[|ops| - 1]) <= now)
    ensures Simulates(Table(ops, c), IdealTable(ops, c), purposes, c, now)
  {
    if ops != [] {
      var before, last := ops[..|ops| - 1], ops[|ops| - 1];
      TableSimulates(before, purposes, c, last.now);
      StepSimulates(Table(before, c), IdealTable(before, c), purposes, c, last);
      var ideal := IdealTable(ops, c);
      forall p, k | p in purposes && (p, k) in ideal && p + k !in Table(ops, c)
        ensures Expired(ideal[(p, k)], now, c.validMinutes)
      {
        ExpiryIsMonotone(ideal[(p, k)], End(last), now, c.validMinutes);
      }
    }
  }

  // ---------- what the table promises ----------

  /** Every operation of every run is answered as by the table that keeps
      (purpose, key) pairs apart and never purges. */
  lemma AnswersLikeIdeal(ops: seq<Op>, purposes: set<string>, c: Config)
    requires ops != [] && PrefixFree(purposes) && Proper(ops, purposes)
    ensures AnswersAlike(ops, c)
  {
    var before, last := ops[..|ops| - 1], ops[|ops| - 1];
    TableSimulates(before, purposes, c, last.now);
    StepSimulates(Table(before, c), IdealTable(before, c), purposes, c, last);
  }

  /** The i-th operation registers the pair, and none after it touches the pair's entry. */
  predicate Latest(ops: seq<Op>, i: nat, key: string, purpose: string) {
    && i < |ops| && ops[i].Register? && (ops[i].purpose, ops[i].key) == (purpose, key)
    && forall j :: i < j < |ops| && !ops[j].Verify? ==> (ops[j].purpose, ops[j].key) != (purpose, key)
  }

  lemma LatestGrows(ops: seq<Op>, op: Op, i: nat, key: string, purpose: string)
    requires op.Verify? || (op.purpose, op.key) != (purpose, key)
    ensures Latest(ops + [op], i, key, purpose) <==> Latest(ops, i, key, purpose)
  {
    var more := ops + [op];
    assert forall j :: 0 <= j < |ops| ==> more[j] == ops[j];
    assert more[|ops|] == op;
    if Latest(more, i, key, purpose) {
      assert i < |ops|;
      assert forall j :: i < j < |ops| ==> more[j] == ops[j];
    }
  }

  lemma {:induction false} IdealHoldsLatest(ops: seq<Op>, c: Config, key: string, purpose: string)
    ensures (purpose, key) in IdealTable(ops, c) ==>
              exists i: nat :: Latest(ops, i, key, purpose) && IdealTable(ops, c)[(purpose, key)] == Entry(ops[i].code, ops[i].now)
    ensures forall i: nat :: Latest(ops, i, key, purpose) ==>
              (purpose, key) in IdealTable(ops, c) && IdealTable(ops, c)[(purpose, key)] == Entry(ops[i].code, ops[i].now)
  {
    if ops != [] {
      var before, last := ops[..|ops| - 1], ops[|ops| - 1];
      assert ops == before + [last];
      IdealHoldsLatest(before, c, key, purpose);
      if !last.Verify? && (last.purpose, last.key) == (purpose, key) {
        assert last.Register? ==> Latest(ops, |before|, key, purpose);
      } else {
        forall i: nat ensures Latest(ops, i, key, purpose) <==> Latest(before, i, key, purpose) {
          LatestGrows(before, last, i, key, purpose);
        }
      }
    }
  }

  /** In every run a code is accepted exactly if it is the code of the latest registration
      of that key for that purpose, not deleted since, and that registration is still good. */
  lemma AcceptsLatestCode(ops: seq<Op>, purposes: set<string>, c: Config, key: string, code: string, purpose: string, now: int)
    requires PrefixFree(purposes) && Proper(ops + [Verify(key, code, purpose, now)], purposes)
    ensures Step(Table(ops, c), c, Verify(key, code, purpose, now)).1 <==>
            exists i: nat :: Latest(ops, i, key, purpose) && ops[i].code == code && StillGood(ops[i].now, now, c.validMinutes)
  {
    var run := ops + [Verify(key, code, purpose, now)];
    assert run[..|run| - 1] == ops;
    AnswersLikeIdeal(run, purposes, c);
    IdealHoldsLatest(ops, c, key, purpose);
  }

  lemma CollidingPurposesFail(p: string, q: string, c: Config)
    requires p <= q && p != q && c.validMinutes > 0
    ensures var ops := [Register("", "code", q, 0, 0), Verify(q[|p|..], "code", p, 0)];
            Proper(ops, {p, q}) && !AnswersAlike(ops, c)
  {
    var ops := [Register("", "code", q, 0, 0), Verify(q[|p|..], "code", p, 0)];
    assert ops[..1] == [Register("", "code", q, 0, 0)];
    assert ops[..1][..0] == [];
    assert p + q[|p|..] == q && q + "" == q;
    assert Table(ops[..1], c) == map[q := Entry("code", 0)];
    assert IdealTable(ops[..1], c) == map[(q, "") := Entry("code", 0)];
  }

  /** A set of purposes is safe in all runs exactly when none is a proper prefix
      of another; the two purposes in use, "v" and "r", are. */
  lemma SafePurposes(purposes: set<string>, c: Config)
    requires c.validMinutes > 0
    ensures (forall ops: seq<Op> :: ops != [] && Proper(ops, purposes) ==> AnswersAlike(ops, c))
            <==> PrefixFree(purposes)
    ensures PrefixFree({"v", "r"})
  {
    if PrefixFree(purposes) {
      forall ops: seq<Op> | ops != [] && Proper(ops, purposes) ensures AnswersAlike(ops, c) {
        AnswersLikeIdeal(ops, purposes, c);
      }
    } else {
      var p, q :| p in purposes && q in purposes && p <= q && p != q;
      CollidingPurposesFail(p, q, c);
      assert Proper([Register("", "code", q, 0, 0), Verify(q[|p|..], "code", p, 0)], purposes);
    }
  }
}
