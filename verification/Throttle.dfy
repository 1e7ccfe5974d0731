/** Fixed-window rate limits counted through a shared cache. */
module Throttle {

  datatype Option<+T> = None | Some(value: T)

  /** The clock's ticks in a second. */
  const SECOND := 1000000

  /** What a counter is stored under; different identities never share a key. */
  datatype Key = Key(scope: string, identity: string, duration: nat, window: nat)

  datatype Counter = Counter(count: nat, expires: nat)

  type Cache = map<Key, Counter>

  function Ticks(key: Key): nat {
    key.duration * SECOND
  }

  function KeyAt(scope: string, identity: string, duration: nat, now: nat): Key
    requires duration > 0
  {
    Key(scope, identity, duration, now / (duration * SECOND))
  }

  predicate Live(cache: Cache, key: Key, now: nat) {
    key in cache && now < cache[key].expires
  }

  /** cache.add: an existing counter is left alone. */
  function Added(cache: Cache, key: Key, now: nat): Cache {
    if Live(cache, key, now) then cache else cache[key := Counter(0, now + Ticks(key) + SECOND)]
  }

  /** cache.incr, or set to one when the counter has expired in between. */
  function Incremented(cache: Cache, key: Key, now: nat): Cache {
    if Live(cache, key, now) then cache[key := Counter(cache[key].count + 1, cache[key].expires)]
    else cache[key := Counter(1, now + Ticks(key) + SECOND)]
  }

  // --- Runs -------------------------------------------------------------------------------------

  /** A request reads the clock (`asked`), adds its counter and later increments it; the steps of
      all requests, of all identities and rates, interleave. */
  datatype Step = Add(key: Key, now: nat) | Incr(key: Key, asked: nat, now: nat)

  function After(run: seq<Step>): Cache {
    if run == [] then map[]
    else
      var cache, last := After(run[..|run| - 1]), run[|run| - 1];
      match last
      case Add(key, now) => Added(cache, key, now)
      case Incr(key, _, now) => Incremented(cache, key, now)
  }

  /** A step is taken after its window began and less than a second after it ended. */
  ghost predicate Lands(step: Step) {
    var key := step.key;
    && key.duration > 0
    && key.window * Ticks(key) <= step.now < (key.window + 1) * Ticks(key) + SECOND
    && (step.Incr? ==> key == KeyAt(key.scope, key.identity, key.duration, step.asked))
  }

  /** The steps of a request that takes less than a second are such steps. */
  lemma QuickRequestsLand(scope: string, identity: string, duration: nat, asked: nat, added: nat, counted: nat)
    requires duration > 0 && asked <= added <= counted < asked + 1000000
    ensures var key := Key(scope, identity, duration, asked / (duration * 1000000));
      Lands(Add(key, added)) && Lands(Incr(key, asked, counted))
  {
    var d := duration * SECOND;
    var w := asked / d;
    assert w * d <= asked < w * d + d;
    assert (w + 1) * d == w * d + d;
  }

  ghost predicate AddedBefore(run: seq<Step>, key: Key) {
    exists i :: 0 <= i < |run| && run[i].Add? && run[i].key == key
  }

  ghost predicate Proper(run: seq<Step>) {
    && (forall i | 0 <= i < |run| :: Lands(run[i]))
    && forall i | 0 <= i < |run| && run[i].Incr? :: AddedBefore(run[..i], run[i].key)
  }

  function Hits(run: seq<Step>, key: Key): nat {
    if run == [] then 0
    else
      var last := run[|run| - 1];
      Hits(run[..|run| - 1], key) + if last.Incr? && last.key == key then 1 else 0
  }

  lemma ProperBefore(run: seq<Step>)
    requires Proper(run) && run != []
    ensures Proper(run[..|run| - 1])
  {
    var before := run[..|run| - 1];
    forall i | 0 <= i < |before| && before[i].Incr? ensures AddedBefore(before[..i], before[i].key) {
      assert run[i].Incr? && before[..i] == run[..i];
    }
  }

  /** The counter of a window never lapses while the window's requests are counted, and it counts
      every one of them. */
  lemma {:induction false} CounterCounts(run: seq<Step>, key: Key)
    requires Proper(run)
    ensures AddedBefore(run, key) ==>
      && key in After(run)
      && After(run)[key].count == Hits(run, key)
      && After(run)[key].expires >= (key.window + 1) * Ticks(key) + SECOND
    ensures !AddedBefore(run, key) ==> key !in After(run) && Hits(run, key) == 0
  {
    if run != [] {
      var before, last := run[..|run| - 1], run[|run| - 1];
      ProperBefore(run);
      CounterCounts(before, key);
      assert Lands(last) && (last.Incr? ==> AddedBefore(before, last.key));
      if AddedBefore(before, key) {
        var i :| 0 <= i < |before| && before[i].Add? && before[i].key == key;
        assert run[i] == before[i];
      }
      if last.Add? && last.key == key && !AddedBefore(before, key) {
        assert run[|run| - 1].Add?;
        AddsUp(key, last.now);
      }
      if last.key != key && AddedBefore(run, key) {
        var i :| 0 <= i < |run| && run[i].Add? && run[i].key == key;
        assert before[i] == run[i];
      }
    }
  }

  lemma AddsUp(key: Key, now: nat)
    requires key.window * Ticks(key) <= now
    ensures now + Ticks(key) + SECOND >= (key.window + 1) * Ticks(key) + SECOND
  {
    assert (key.window + 1) * Ticks(key) == key.window * Ticks(key) + Ticks(key);
  }

  // --- Verdicts ---------------------------------------------------------------------------------

  /** allow_request's verdict on the last step. */
  predicate Allows(run: seq<Step>, limit: nat)
    requires run != []
  {
    var key := run[|run| - 1].key;
    run[|run| - 1].Incr? && (key in After(run) ==> After(run)[key].count <= limit)
  }

  function Allowed(run: seq<Step>, key: Key, limit: nat): nat {
    if run == [] then 0
    else Allowed(run[..|run| - 1], key, limit) + if run[|run| - 1].key == key && Allows(run, limit) then 1 else 0
  }

  /** Exactly the first `limit` requests of a window are allowed. */
  lemma {:induction false} WindowAllowsExactly(run: seq<Step>, key: Key, limit: nat)
    requires Proper(run)
    ensures Allowed(run, key, limit) == if Hits(run, key) <= limit then Hits(run, key) else limit
  {
    if run != [] {
      ProperBefore(run);
      WindowAllowsExactly(run[..|run| - 1], key, limit);
      CounterCounts(run, key);
      if run[|run| - 1].Incr? && run[|run| - 1].key == key {
        var i :| 0 <= i < |run[..|run| - 1]| && run[..|run| - 1][i].Add? && run[..|run| - 1][i].key == key;
        assert run[i].Add? && run[i].key == key;
      }
    }
  }

  /** Allowed requests of one identity and rate that asked from `from` on and before `to`. */
  function AllowedBetween(run: seq<Step>, scope: string, identity: string, duration: nat, limit: nat, from: nat,
                          to: nat): nat
  {
    if run == [] then 0
    else
      var last := run[|run| - 1];
      AllowedBetween(run[..|run| - 1], scope, identity, duration, limit, from, to)
      + if last.Incr? && last.key.scope == scope && last.key.identity == identity && last.key.duration == duration
           && from <= last.asked < to && Allows(run, limit) then 1 else 0
  }

  lemma TwoWindows(from: nat, asked: nat, d: nat)
    requires d > 0 && from <= asked < from + d
    ensures asked / d == from / d || asked / d == from / d + 1
  {
    var w := from / d;
    assert w * d <= from < w * d + d;
    assert asked < w * d + 2 * d == (w + 2) * d;
    DividesBetween(asked, d, w);
  }

  lemma DividesBetween(asked: nat, d: nat, w: nat)
    requires d > 0 && w * d <= asked < (w + 2) * d
    ensures w <= asked / d <= w + 1
  {
    var q := asked / d;
    assert q * d <= asked < q * d + d;
    Scales(q + 1, w, d);
    Scales(w + 2, q, d);
    assert (q + 1) * d == q * d + d;
  }

  lemma Scales(a: nat, b: nat, d: nat)
    ensures a <= b ==> a * d <= b * d
  {
  }

  lemma {:induction false} SlidingCount(run: seq<Step>, scope: string, identity: string, duration: nat, limit: nat,
                                        from: nat, to: nat)
    requires Proper(run) && duration > 0 && to <= from + duration * SECOND
    ensures var first := KeyAt(scope, identity, duration, from);
      AllowedBetween(run, scope, identity, duration, limit, from, to)
      <= Allowed(run, first, limit) + Allowed(run, first.(window := first.window + 1), limit)
  {
    if run != [] {
      var last := run[|run| - 1];
      ProperBefore(run);
      SlidingCount(run[..|run| - 1], scope, identity, duration, limit, from, to);
      if last.Incr? && last.key.scope == scope && last.key.identity == identity && last.key.duration == duration
        && from <= last.asked < to {
        assert Lands(last);
        TwoWindows(from, last.asked, duration * SECOND);
      }
    }
  }

  /** However requests are spread, at most twice the limit is allowed in any stretch of time as
      long as a window. */
  lemma SlidingBound(run: seq<Step>, scope: string, identity: string, duration: nat, limit: nat, from: nat, to: nat)
    requires Proper(run) && duration > 0 && to <= from + duration * SECOND
    ensures AllowedBetween(run, scope, identity, duration, limit, from, to) <= 2 * limit
  {
    var first := KeyAt(scope, identity, duration, from);
    SlidingCount(run, scope, identity, duration, limit, from, to);
    WindowAllowsExactly(run, first, limit);
    WindowAllowsExactly(run, first.(window := first.window + 1), limit);
  }

  /** The announced wait ends where the next window begins, and not a tick before. */
  lemma WaitEndsWithTheWindow(now: nat, d: nat)
    requires d > 0
    ensures var wait := d - now % d;
      0 < wait <= d && (now + wait) / d == now / d + 1 && (now + wait - 1) / d == now / d && (now + wait) % d == 0
  {
    var w, wait := now / d, d - now % d;
    assert now == w * d + now % d;
    assert now + wait == w * d + d == (w + 1) * d;
    SameWindow(now + wait, d, w + 1);
    SameWindow(now + wait - 1, d, w);
    assert now + wait == ((now + wait) / d) * d + (now + wait) % d;
  }

  lemma SameWindow(t: nat, d: nat, w: nat)
    requires d > 0 && w * d <= t < w * d + d
    ensures t / d == w
  {
    assert (w + 2) * d == w * d + d + d && (w + 1) * d == w * d + d;
    DividesBetween(t, d, w);
    assert (t / d) * d <= t;
  }

  // --- The throttle as it runs --------------------------------------------------------------------

  class CacheThrottleStorage {
    var counters: Cache

    constructor ()
      ensures counters == map[]
    {
      counters := map[];
    }

    method Add(key: Key, now: nat)
      modifies this
      ensures counters == Added(old(counters), key, now)
    {
      if key !in counters || counters[key].expires <= now {
        counters := counters[key := Counter(0, now + Ticks(key) + SECOND)];
      }
    }

    /** Count one hit. Time passes between its cache operations, so the counter it added may have
        expired when it is incremented. */
    method Hit(key: Key, added: nat, counted: nat) returns (count: nat, retryAfter: nat)
      requires key.duration > 0 && added <= counted
      modifies this
      ensures counters == Incremented(Added(old(counters), key, added), key, counted)
      ensures var before := old(counters);
        counters[key] ==
          if key in before && counted < before[key].expires then Counter(before[key].count + 1, before[key].expires)
          else if key in before && added < before[key].expires then Counter(1, counted + (key.duration + 1) * SECOND)
          else if counted < added + (key.duration + 1) * SECOND then Counter(1, added + (key.duration + 1) * SECOND)
          else Counter(1, counted + (key.duration + 1) * SECOND)
      ensures key in counters && count == counters[key].count
      ensures Live(old(counters), key, counted) ==> count == old(counters)[key].count + 1
      ensures !Live(old(counters), key, added) ==> count == 1
      ensures forall other | other != key :: other in counters <==> other in old(counters)
      ensures forall other | other != key && other in counters :: counters[other] == old(counters)[other]
      ensures 0 < retryAfter <= Ticks(key) && (counted + retryAfter) % Ticks(key) == 0
    {
      Add(key, added);
      if key in counters && counted < counters[key].expires {
        count := counters[key].count + 1;
        counters := counters[key := counters[key].(count := count)];
      } else {
        counters := counters[key := Counter(1, counted + Ticks(key) + SECOND)];
        count := 1;
      }
      retryAfter := Ticks(key) - counted % Ticks(key);
      WaitEndsWithTheWindow(counted, Ticks(key));
    }
  }

  datatype Rate = Rate(limit: nat, duration: nat)

  class RateThrottle {
    const scope: string
    const storage: CacheThrottleStorage
    var wait: Option<nat>

    constructor (scope: string, storage: CacheThrottleStorage)
      ensures this.scope == scope && this.storage == storage && wait == None
    {
      this.scope, this.storage, wait := scope, storage, None;
    }

    /** Without a rate or an identity nothing is counted; otherwise the request is allowed while
        its window has counted fewer than `limit` before it. The clock is read when the request
        asks and again by each cache operation. */
    method AllowRequest(rate: Option<Rate>, identity: Option<string>, asked: nat, added: nat, counted: nat)
      returns (allowed: bool)
      requires rate.Some? ==> rate.value.duration > 0
      requires asked <= added <= counted
      modifies this, storage
      ensures rate.None? || identity.None? ==> allowed && wait == None && storage.counters == old(storage.counters)
      ensures rate.Some? && identity.Some? ==>
        var window := asked / (rate.value.duration * 1000000);
        var key := Key(scope, identity.value, rate.value.duration, window);
        var counters := old(storage.counters);
        && storage.counters == Incremented(Added(counters, key, added), key, counted)
        && (allowed <==> storage.counters[key].count <= rate.value.limit)
        && (forall other | other != key :: (other in storage.counters <==> other in counters)
                                           && (other in counters ==> storage.counters[other] == counters[other]))
        && (Live(counters, key, counted) ==> (allowed <==> counters[key].count < rate.value.limit))
        && (allowed ==> wait == None)
        && (!allowed ==> wait.Some? && 0 < wait.value <= Ticks(key) && (counted + wait.value) % Ticks(key) == 0)
    {
      wait := None;
      if rate.None? || identity.None? {
        return true;
      }
      var key := KeyAt(scope, identity.value, rate.value.duration, asked);
      var count, retryAfter := storage.Hit(key, added, counted);
      if count > rate.value.limit {
        wait := Some(retryAfter);
        return false;
      }
      return true;
    }
  }
}
