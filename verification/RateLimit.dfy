/** The in-memory sliding-window rate limiter. It keeps at most `limit`
    timestamps per key and a background pass forgets idle keys; the theorems
    compare it with a limiter that remembers every admission ever made. */
module RateLimit {

  type Store = map<string, seq<int>>

  // ---------- the limiter's own state ----------

  function RequestOn(store: Store, key: string, limit: int, duration: int, now: int): (r: (Store, bool))
    requires forall k :: k in store ==> store[k] != []
  {
    if key !in store then (store[key := [now]], true)
    else if |store[key]| < limit then (store[key := store[key] + [now]], true)
    else if now - store[key][0] >= duration then (store[key := store[key][1..] + [now]], true)
    else (store, false)
  }

  predicate Idle(queue: seq<int>, expiration: int, now: int) {
    queue == [] || now - queue[|queue| - 1] > expiration
  }

  function PurgeOn(store: Store, expiration: int, now: int): (r: Store) {
    map k | k in store && !Idle(store[k], expiration, now) :: store[k]
  }

  class InMemoryRateLimiter {
    var store: Store
    const expiration: int

    ghost predicate Valid()
      reads this
    {
      forall k :: k in store ==> store[k] != []
    }

    constructor (expiration: int)
      ensures Valid() && store == map[] && this.expiration == expiration
    {
      this.expiration := expiration;
      store := map[];
    }

    /** A negative capacity for a new key's queue would panic. */
    method Request(key: string, maxRequestNum: int, duration: int, now: int) returns (admitted: bool)
      requires Valid()
      requires key !in store ==> maxRequestNum >= 0
      modifies this`store
      ensures Valid()
      ensures (store, admitted) == RequestOn(old(store), key, maxRequestNum, duration, now)
    {
      if key in store {
        var queue := store[key];
        if |queue| < maxRequestNum {
          store := store[key := queue + [now]];
          return true;
        } else if now - queue[0] >= duration {
          queue := queue[1..];
          store := store[key := queue + [now]];
          return true;
        } else {
          return false;
        }
      }
      store := store[key := []];
      store := store[key := store[key] + [now]];
      assert store[key] == [now];
      assert store == old(store)[key := [now]];
      return true;
    }

    /** One pass of the background cleaner. */
    method ClearExpiredItems(now: int)
      requires Valid()
      modifies this`store
      ensures Valid()
      ensures store == PurgeOn(old(store), expiration, now)
    {
      var pending := store.Keys;
      while pending != {}
        invariant pending <= old(store).Keys
        invariant store == map k | k in old(store) && (k in pending || !Idle(old(store)[k], expiration, now)) :: old(store)[k]
        decreases pending
      {
        var key :| key in pending;
        var queue := store[key];
        if |queue| == 0 || now - queue[|queue| - 1] > expiration {
          store := store - {key};
        }
        pending := pending - {key};
      }
    }
  }

  // ---------- runs against the full history ----------

  datatype Policy = Policy(limit: int, duration: int)

  datatype Event = Request(key: string, now: int) | Purge(now: int)

  /** The limiter together with every admission it has ever made. */
  datatype World = World(store: Store, admitted: map<string, seq<int>>)

  function Past(w: World, key: string): seq<int> {
    if key in w.admitted then w.admitted[key] else []
  }

  predicate Live(w: World) {
    forall k :: k in w.store ==> w.store[k] != []
  }

  function Next(w: World, e: Event, policy: string -> Policy, expiration: int): (w': World)
    requires Live(w)
    ensures Live(w')
  {
    match e
    case Purge(now) => World(PurgeOn(w.store, expiration, now), w.admitted)
    case Request(key, now) =>
      var (store, ok) := RequestOn(w.store, key, policy(key).limit, policy(key).duration, now);
      World(store, if ok then w.admitted[key := Past(w, key) + [now]] else w.admitted)
  }

  function Exec(events: seq<Event>, policy: string -> Policy, expiration: int): (w: World)
    ensures Live(w)
  {
    if events == [] then World(map[], map[])
    else Next(Exec(events[..|events| - 1], policy, expiration), events[|events| - 1], policy, expiration)
  }

  predicate Monotone(events: seq<Event>) {
    forall i, j :: 0 <= i < j < |events| ==> events[i].now <= events[j].now
  }

  /** How many of the times in `h` are later than `t`. */
  function CountSince(h: seq<int>, t: int): nat {
    if h == [] then 0 else CountSince(h[..|h| - 1], t) + if h[|h| - 1] > t then 1 else 0
  }

  /** How many of the times in `h` fall in the half-open window (lo, hi]. */
  function CountIn(h: seq<int>, lo: int, hi: int): nat {
    if h == [] then 0 else CountIn(h[..|h| - 1], lo, hi) + if lo < h[|h| - 1] <= hi then 1 else 0
  }

  /** The sliding-window rule read off the full history. */
  predicate Allowed(h: seq<int>, p: Policy, now: int) {
    CountSince(h, now - p.duration) < p.limit
  }

  /** The limiter decides request (key, now) after these events as the full history would. */
  ghost predicate Faithful(events: seq<Event>, key: string, now: int, policy: string -> Policy, expiration: int) {
    var w := Exec(events, policy, expiration);
    RequestOn(w.store, key, policy(key).limit, policy(key).duration, now).1 <==> Allowed(Past(w, key), policy(key), now)
  }

  // ---------- the simulation ----------

  predicate Sorted(h: seq<int>) {
    forall i, j :: 0 <= i < j < |h| ==> h[i] <= h[j]
  }

  function Queue(w: World, key: string): seq<int> {
    if key in w.store then w.store[key] else []
  }

  /** The stored queue is the tail of the history, and every admission it has
      forgotten is either beyond the limit or out of the window for good. */
  ghost predicate Agrees(q: seq<int>, h: seq<int>, p: Policy, clock: int) {
    && Sorted(h) && (forall i :: 0 <= i < |h| ==> h[i] <= clock)
    && |q| <= |h| && |q| <= p.limit && q == h[|h| - |q|..]
    && (|q| == p.limit || forall i :: 0 <= i < |h| - |q| ==> h[i] <= clock - p.duration)
    && (forall i, j :: 0 <= i && i + p.limit <= j < |h| ==> h[j] - h[i] >= p.duration)
  }

  ghost predicate Sensible(p: Policy, expiration: int) {
    p.limit >= 1 && 0 < p.duration <= expiration + 1
  }

  /** In a sorted history the times later than `t` are exactly the last ones. */
  lemma {:induction false} CountIsTail(h: seq<int>, t: int)
    requires Sorted(h)
    ensures CountSince(h, t) <= |h|
    ensures forall i :: 0 <= i < |h| ==> (h[i] > t <==> i >= |h| - CountSince(h, t))
  {
    if h != [] {
      CountIsTail(h[..|h| - 1], t);
      if h[|h| - 1] <= t {
        assert forall i :: 0 <= i < |h| ==> h[i] <= t;
      }
    }
  }

  /** The queue alone decides as the full history would. */
  lemma QueueDecides(q: seq<int>, h: seq<int>, p: Policy, now: int)
    requires p.limit >= 1 && Agrees(q, h, p, now)
    ensures Allowed(h, p, now) <==> |q| < p.limit || now - q[0] >= p.duration
  {
    CountIsTail(h, now - p.duration);
    var c := CountSince(h, now - p.duration);
    assert c == 0 || h[|h| - c] > now - p.duration;
    assert |q| == p.limit ==> q[0] == h[|h| - |q|];
  }

  lemma AdmissionAgrees(q: seq<int>, h: seq<int>, p: Policy, now: int)
    requires p.limit >= 1 && Agrees(q, h, p, now) && Allowed(h, p, now)
    ensures Agrees((if |q| < p.limit then q else q[1..]) + [now], h + [now], p, now)
  {
    CountIsTail(h, now - p.duration);
  }

  lemma ClockAdvances(q: seq<int>, h: seq<int>, p: Policy, clock: int, now: int)
    requires Agrees(q, h, p, clock) && clock <= now
    ensures Agrees(q, h, p, now)
  {
  }

  lemma ForgettingAgrees(q: seq<int>, h: seq<int>, p: Policy, now: int)
    requires p.limit >= 1 && q != [] && Agrees(q, h, p, now) && now - q[|q| - 1] >= p.duration
    ensures Agrees([], h, p, now)
  {
    assert q[|q| - 1] == h[|h| - 1];
  }

  lemma NextAgrees(w: World, e: Event, key: string, policy: string -> Policy, expiration: int)
    requires Live(w) && Sensible(policy(key), expiration) && Agrees(Queue(w, key), Past(w, key), policy(key), e.now)
    ensures var w' := Next(w, e, policy, expiration); Agrees(Queue(w', key), Past(w', key), policy(key), e.now)
  {
    var q, h, p, w' := Queue(w, key), Past(w, key), policy(key), Next(w, e, policy, expiration);
    if e.Purge? {
      assert Queue(w', key) == if q == [] || Idle(q, expiration, e.now) then [] else q;
      if q != [] && Idle(q, expiration, e.now) {
        ForgettingAgrees(q, h, p, e.now);
      }
    } else if e.key == key {
      QueueDecides(q, h, p, e.now);
      if Allowed(h, p, e.now) {
        AdmissionAgrees(q, h, p, e.now);
        assert Past(w', key) == h + [e.now];
        assert Queue(w', key) == (if |q| < p.limit then q else q[1..]) + [e.now];
      }
    }
  }

  lemma {:induction false} ExecAgrees(events: seq<Event>, key: string, policy: string -> Policy, expiration: int, now: int)
    requires Monotone(events) && (events != [] ==> events[|events| - 1].now <= now)
    requires Sensible(policy(key), expiration)
    ensures var w := Exec(events, policy, expiration); Agrees(Queue(w, key), Past(w, key), policy(key), now)
  {
    if events != [] {
      var before, last := events[..|events| - 1], events[|events| - 1];
      var w, w' := Exec(before, policy, expiration), Exec(events, policy, expiration);
      ExecAgrees(before, key, policy, expiration, last.now);
      NextAgrees(w, last, key, policy, expiration);
      ClockAdvances(Queue(w', key), Past(w', key), policy(key), last.now, now);
    }
  }

  // ---------- what the limiter promises ----------

  /** Whatever ran before, a request is admitted exactly when fewer than the
      limit were admitted in the last `duration` seconds of the full history. */
  lemma AdmitsByFullHistory(events: seq<Event>, key: string, now: int, policy: string -> Policy, expiration: int)
    requires Monotone(events + [Request(key, now)])
    requires Sensible(policy(key), expiration)
    ensures Faithful(events, key, now, policy, expiration)
  {
    var all := events + [Request(key, now)];
    assert forall i :: 0 <= i < |events| ==> all[i] == events[i];
    assert events != [] ==> all[|events| - 1].now <= all[|events|].now;
    ExecAgrees(events, key, policy, expiration, now);
    var w := Exec(events, policy, expiration);
    QueueDecides(Queue(w, key), Past(w, key), policy(key), now);
  }

  lemma {:induction false} CountInSplits(h: seq<int>, lo: int, hi: int)
    requires lo <= hi
    ensures CountIn(h, lo, hi) == CountSince(h, lo) - CountSince(h, hi)
  {
    if h != [] {
      CountInSplits(h[..|h| - 1], lo, hi);
    }
  }

  /** No half-open window of the policy's length ever holds more than the limit. */
  lemma NoWindowOverflows(events: seq<Event>, key: string, policy: string -> Policy, expiration: int, start: int)
    requires Monotone(events) && Sensible(policy(key), expiration)
    ensures var h := Past(Exec(events, policy, expiration), key);
            CountIn(h, start, start + policy(key).duration) <= policy(key).limit
  {
    var p, end := policy(key), start + policy(key).duration;
    var h := Past(Exec(events, policy, expiration), key);
    ExecAgrees(events, key, policy, expiration, if events == [] then 0 else events[|events| - 1].now);
    CountInSplits(h, start, end);
    CountIsTail(h, start);
    CountIsTail(h, end);
    var i, j := |h| - CountSince(h, start), |h| - CountSince(h, end) - 1;
    assert i < |h| ==> h[i] > start;
    assert 0 <= j ==> h[j] <= end;
  }

  // ---------- the bound on the duration is exact ----------

  function Burst(key: string, n: nat): seq<Event> {
    seq(n, _ => Request(key, 0))
  }

  lemma ExecOneMore(events: seq<Event>, e: Event, policy: string -> Policy, expiration: int)
    ensures Exec(events + [e], policy, expiration) == Next(Exec(events, policy, expiration), e, policy, expiration)
  {
    assert (events + [e])[..|events + [e]| - 1] == events;
  }

  lemma {:induction false} BurstFills(key: string, n: nat, policy: string -> Policy, expiration: int)
    requires 1 <= n <= policy(key).limit
    ensures var w := Exec(Burst(key, n), policy, expiration);
            && key in w.store && |w.store[key]| == n && |Past(w, key)| == n
            && (forall i :: 0 <= i < n ==> w.store[key][i] == 0 && Past(w, key)[i] == 0)
  {
    assert Burst(key, n)[..n - 1] == Burst(key, n - 1);
    if n > 1 {
      BurstFills(key, n - 1, policy, expiration);
    } else {
      assert Burst(key, 0) == [];
    }
  }

  lemma {:induction false} AllZerosCounted(h: seq<int>, t: int)
    requires t < 0 && forall i :: 0 <= i < |h| ==> h[i] == 0
    ensures CountSince(h, t) == |h|
  {
    if h != [] {
      AllZerosCounted(h[..|h| - 1], t);
    }
  }

  lemma LongDurationFails(key: string, policy: string -> Policy, expiration: int)
    requires policy(key).limit >= 1 && 0 < expiration && expiration + 1 < policy(key).duration
    ensures var events := Burst(key, policy(key).limit) + [Purge(expiration + 1)];
            && Monotone(events + [Request(key, expiration + 1)])
            && !Faithful(events, key, expiration + 1, policy, expiration)
  {
    var p, now := policy(key), expiration + 1;
    var burst := Burst(key, p.limit);
    var events := burst + [Purge(now)];
    BurstFills(key, p.limit, policy, expiration);
    ExecOneMore(burst, Purge(now), policy, expiration);
    var w := Exec(burst, policy, expiration);
    assert key !in PurgeOn(w.store, expiration, now);
    AllZerosCounted(Past(w, key), now - p.duration);
  }

  /** The limiter follows the full history in all runs exactly when the duration
      exceeds the expiration period by at most one second: beyond that, a full
      burst, one cleaning pass and one more request break the limit. */
  lemma DurationBoundIsExact(key: string, policy: string -> Policy, expiration: int)
    requires policy(key).limit >= 1 && policy(key).duration > 0 && expiration > 0
    ensures (forall events: seq<Event>, now: int :: Monotone(events + [Request(key, now)]) ==>
               Faithful(events, key, now, policy, expiration))
            <==> policy(key).duration <= expiration + 1
  {
    if policy(key).duration <= expiration + 1 {
      forall events: seq<Event>, now: int | Monotone(events + [Request(key, now)])
        ensures Faithful(events, key, now, policy, expiration)
      {
        AdmitsByFullHistory(events, key, now, policy, expiration);
      }
    } else {
      LongDurationFails(key, policy, expiration);
    }
  }
}
