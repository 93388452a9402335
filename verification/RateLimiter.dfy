/** The command limiter of internal/security/security.go. Times are nanoseconds. */
module RateLimiter {
  type Key = string
  datatype Bucket = Bucket(tokens: int, lastFill: int)
  type Buckets = map<Key, Bucket>

  /** capacity and refill as NewLimiter leaves them. */
  datatype Config = Config(capacity: int, refill: int)
  {
    predicate Valid() {
      capacity >= 1 && refill >= 1
    }
  }

  const MINUTE: int := 60_000_000_000

  function NewConfig(capacity: int, refill: int): (c: Config)
    ensures c.Valid()
  {
    Config(if capacity <= 0 then 1 else capacity, if refill <= 0 then MINUTE else refill)
  }

  // ---------- what the operations compute ----------

  /** The bucket Allow finds: a new one if there is none, refilled if it is due. */
  function Found(c: Config, m: Buckets, key: Key, now: int): Bucket {
    if key !in m || now - m[key].lastFill >= c.refill then Bucket(c.capacity, now) else m[key]
  }

  function Granted(c: Config, m: Buckets, key: Key, now: int): bool {
    Found(c, m, key, now).tokens > 0
  }

  function Allowed(c: Config, m: Buckets, key: Key, now: int): Buckets {
    var b := Found(c, m, key, now);
    m[key := if b.tokens > 0 then b.(tokens := b.tokens - 1) else b]
  }

  function Pruned(m: Buckets, maxAge: int, now: int): Buckets {
    map k | k in m && !(m[k].lastFill < now - maxAge) :: m[k]
  }

  // ---------- the code ----------

  class Limiter {
    const config: Config
    var tokens: Buckets

    constructor (capacity: int, refill: int)
      ensures config == NewConfig(capacity, refill) && tokens == map[]
      ensures config.capacity == (if capacity <= 0 then 1 else capacity)
      ensures config.refill == if refill <= 0 then 60_000_000_000 else refill
    {
      var cap, fill := capacity, refill;
      if cap <= 0 {
        cap := 1;
      }
      if fill <= 0 {
        fill := MINUTE;
      }
      config := Config(cap, fill);
      tokens := map[];
    }

    method Allow(key: Key, now: int) returns (ok: bool)
      requires config.Valid()
      modifies this
      ensures ok == Granted(config, old(tokens), key, now)
      ensures tokens == Allowed(config, old(tokens), key, now)
    {
      var b;
      if key in tokens {
        b := tokens[key];
      } else {
        b := Bucket(config.capacity, now);
        tokens := tokens[key := b];
      }
      var elapsed := now - b.lastFill;
      if elapsed >= config.refill {
        b := Bucket(config.capacity, now);
      }
      if b.tokens <= 0 {
        tokens := tokens[key := b];
        return false;
      }
      b := b.(tokens := b.tokens - 1);
      tokens := tokens[key := b];
      return true;
    }

    method Prune(maxAge: int, now: int)
      modifies this
      ensures tokens == Pruned(old(tokens), maxAge, now)
    {
      ghost var was := tokens;
      var cutoff := now - maxAge;
      var left := tokens.Keys;
      while left != {}
        invariant left <= tokens.Keys <= was.Keys
        invariant forall k :: k in tokens ==> tokens[k] == was[k]
        invariant forall k :: k in was && k !in left ==> (k in tokens <==> was[k].lastFill >= cutoff)
        decreases left
      {
        var k :| k in left;
        if tokens[k].lastFill < cutoff {
          tokens := tokens - {k};
        }
        left := left - {k};
      }
    }
  }

  // ---------- traces ----------

  datatype Event = Allow(key: Key, now: int) | Prune(maxAge: int, now: int)

  /** The clock does not go back. */
  predicate InOrder(trace: seq<Event>, clock: int) {
    trace == [] || (trace[0].now >= clock && InOrder(trace[1..], trace[0].now))
  }

  function Do(c: Config, m: Buckets, e: Event): Buckets {
    match e
    case Allow(key, now) => Allowed(c, m, key, now)
    case Prune(maxAge, now) => Pruned(m, maxAge, now)
  }

  /** What the Allow calls of a trace return. */
  function Verdicts(c: Config, m: Buckets, trace: seq<Event>): seq<bool>
    decreases |trace|
  {
    if trace == [] then []
    else
      (if trace[0].Allow? then [Granted(c, m, trace[0].key, trace[0].now)] else [])
      + Verdicts(c, Do(c, m, trace[0]), trace[1..])
  }

  function WithoutPrunes(trace: seq<Event>): seq<Event> {
    if trace == [] then []
    else (if trace[0].Allow? then [trace[0]] else []) + WithoutPrunes(trace[1..])
  }

  /** Grants to key in the half-open interval of length d from a. */
  function Grants(c: Config, m: Buckets, trace: seq<Event>, key: Key, a: int, d: int): nat
    decreases |trace|
  {
    if trace == [] then 0
    else
      var e := trace[0];
      (if e.Allow? && e.key == key && a <= e.now < a + d && Granted(c, m, key, e.now) then 1 else 0)
      + Grants(c, Do(c, m, e), trace[1..], key, a, d)
  }

  // ---------- pruning is unobservable ----------

  predicate PrunesOnlyOlderThan(trace: seq<Event>, age: int) {
    forall e :: e in trace && e.Prune? ==> e.maxAge >= age
  }

  /** u is m with the pruned buckets still there: all of them due for a refill. */
  predicate Simulates(c: Config, m: Buckets, u: Buckets, clock: int) {
    && (forall k :: k in m ==> k in u && u[k] == m[k])
    && (forall k :: k in u && k !in m ==> clock - u[k].lastFill >= c.refill)
  }

  lemma SimulationStep(c: Config, m: Buckets, u: Buckets, clock: int, e: Event)
    requires c.Valid() && Simulates(c, m, u, clock) && e.now >= clock
    requires e.Prune? ==> e.maxAge >= c.refill - 1
    ensures e.Allow? ==> Found(c, m, e.key, e.now) == Found(c, u, e.key, e.now)
    ensures Simulates(c, Do(c, m, e), if e.Allow? then Do(c, u, e) else u, e.now)
  {
  }

  lemma {:induction false} Simulation(c: Config, m: Buckets, u: Buckets, clock: int, trace: seq<Event>,
                                      key: Key, a: int, d: int)
    requires c.Valid() && Simulates(c, m, u, clock) && InOrder(trace, clock)
    requires PrunesOnlyOlderThan(trace, c.refill - 1)
    ensures Verdicts(c, m, trace) == Verdicts(c, u, WithoutPrunes(trace))
    ensures Grants(c, m, trace, key, a, d) == Grants(c, u, WithoutPrunes(trace), key, a, d)
    decreases |trace|
  {
    if trace != [] {
      var e := trace[0];
      assert e in trace;
      SimulationStep(c, m, u, clock, e);
      var u' := if e.Allow? then Do(c, u, e) else u;
      assert forall x :: x in trace[1..] ==> x in trace;
      Simulation(c, Do(c, m, e), u', e.now, trace[1..], key, a, d);
      if e.Allow? {
        assert WithoutPrunes(trace)[0] == e && WithoutPrunes(trace)[1..] == WithoutPrunes(trace[1..]);
      } else {
        assert WithoutPrunes(trace) == WithoutPrunes(trace[1..]);
      }
    }
  }

  // ---------- fixed windows ----------

  predicate Counted(c: Config, m: Buckets, x: Event, key: Key, a: int, d: int) {
    x.Allow? && x.key == key && a <= x.now < a + d && Granted(c, m, key, x.now)
  }

  /** A window of one key: when it opened, and the calls in it, granted or not. */
  datatype Window = NoWindow | Window(start: int, calls: nat)

  /** A call opens a window if there is none or the last one opened at least a refill ago; else it is one more in it. */
  function Called(c: Config, w: Window, now: int): Window {
    if w.NoWindow? || now - w.start >= c.refill then Window(now, 1) else Window(w.start, w.calls + 1)
  }

  /** The window of a key after a trace, read off the times of its calls alone. */
  function WindowOf(c: Config, trace: seq<Event>, key: Key): Window {
    if trace == [] then NoWindow
    else
      var e, w := trace[|trace| - 1], WindowOf(c, trace[..|trace| - 1], key);
      if e.Allow? && e.key == key then Called(c, w, e.now) else w
  }

  /** The first capacity calls of each window, and no others. */
  function WindowVerdicts(c: Config, trace: seq<Event>): seq<bool> {
    if trace == [] then []
    else
      var e, before := trace[|trace| - 1], trace[..|trace| - 1];
      WindowVerdicts(c, before)
      + (if e.Allow? then [Called(c, WindowOf(c, before, e.key), e.now).calls <= c.capacity] else [])
  }

  function After(c: Config, m: Buckets, trace: seq<Event>): Buckets {
    if trace == [] then m else Do(c, After(c, m, trace[..|trace| - 1]), trace[|trace| - 1])
  }

  function Latest(trace: seq<Event>, clock: int): int {
    if trace == [] then clock else trace[|trace| - 1].now
  }

  lemma {:induction false} InOrderSplit(trace: seq<Event>, clock: int)
    requires InOrder(trace, clock) && trace != []
    ensures InOrder(trace[..|trace| - 1], clock)
    ensures trace[|trace| - 1].now >= Latest(trace[..|trace| - 1], clock)
  {
    if |trace| > 1 {
      InOrderSplit(trace[1..], trace[0].now);
      assert trace[1..][..|trace| - 2] == trace[..|trace| - 1][1..];
    }
  }

  lemma {:induction false} AfterHead(c: Config, m: Buckets, trace: seq<Event>)
    requires trace != []
    ensures After(c, m, trace) == After(c, Do(c, m, trace[0]), trace[1..])
  {
    if |trace| > 1 {
      AfterHead(c, m, trace[..|trace| - 1]);
      assert trace[..|trace| - 1][1..] == trace[1..][..|trace| - 2];
    } else {
      assert trace[..0] == [] && trace[1..] == [];
    }
  }

  /** What one more event adds to the verdicts. */
  lemma {:induction false} LastVerdict(c: Config, m: Buckets, trace: seq<Event>, e: Event)
    ensures Verdicts(c, m, trace + [e])
         == Verdicts(c, m, trace) + (if e.Allow? then [Granted(c, After(c, m, trace), e.key, e.now)] else [])
    decreases |trace|
  {
    if trace == [] {
      assert trace + [e] == [e] && [e][1..] == [];
    } else {
      var x := trace[0];
      assert (trace + [e])[0] == x && (trace + [e])[1..] == trace[1..] + [e];
      AfterHead(c, m, trace);
      hide Granted, Do, After;
      LastVerdict(c, Do(c, m, x), trace[1..], e);
    }
  }

  /** And to the grants. */
  lemma {:induction false} LastGrant(c: Config, m: Buckets, trace: seq<Event>, e: Event, key: Key, a: int, d: int)
    ensures Grants(c, m, trace + [e], key, a, d)
         == Grants(c, m, trace, key, a, d) + (if Counted(c, After(c, m, trace), e, key, a, d) then 1 else 0)
    decreases |trace|
  {
    if trace == [] {
      assert trace + [e] == [e] && [e][1..] == [];
    } else {
      var x := trace[0];
      assert (trace + [e])[0] == x && (trace + [e])[1..] == trace[1..] + [e];
      AfterHead(c, m, trace);
      hide Granted, Do, After, Counted;
      LastGrant(c, Do(c, m, x), trace[1..], e, key, a, d);
    }
  }

  /** The bucket of a key is its window: the tokens are what the calls in it have left, and a pruned one is over. */
  predicate Shows(c: Config, m: Buckets, w: Window, key: Key, clock: int) {
    match w
    case NoWindow => key !in m
    case Window(start, calls) =>
      && start <= clock && calls >= 1
      && if key in m then m[key] == Bucket(if calls <= c.capacity then c.capacity - calls else 0, start)
         else clock - start >= c.refill
  }

  lemma ShowsStep(c: Config, m: Buckets, w: Window, key: Key, clock: int, e: Event)
    requires c.Valid() && Shows(c, m, w, key, clock) && e.now >= clock
    requires e.Prune? ==> e.maxAge >= c.refill - 1
    ensures Shows(c, Do(c, m, e), if e.Allow? && e.key == key then Called(c, w, e.now) else w, key, e.now)
  {
  }

  lemma ShownGrants(c: Config, m: Buckets, w: Window, key: Key, clock: int, now: int)
    requires c.Valid() && Shows(c, m, w, key, clock) && now >= clock
    ensures Granted(c, m, key, now) <==> Called(c, w, now).calls <= c.capacity
  {
  }

  lemma {:induction false} BucketsShowWindows(c: Config, trace: seq<Event>, clock: int, key: Key)
    requires c.Valid() && InOrder(trace, clock) && PrunesOnlyOlderThan(trace, c.refill - 1)
    ensures Shows(c, After(c, map[], trace), WindowOf(c, trace, key), key, Latest(trace, clock))
    decreases |trace|
  {
    if trace != [] {
      var before, e := trace[..|trace| - 1], trace[|trace| - 1];
      assert e in trace && forall x :: x in before ==> x in trace;
      InOrderSplit(trace, clock);
      BucketsShowWindows(c, before, clock, key);
      ShowsStep(c, After(c, map[], before), WindowOf(c, before, key), key, Latest(before, clock), e);
    }
  }

  /**
   * What the limiter grants, on every trace whose prunes are old enough: of
   * each window the first capacity calls. A denied call changes nothing, and the
   * first call a refill after a window opened is always granted.
   */
  lemma {:induction false} VerdictsAreWindows(c: Config, trace: seq<Event>, clock: int)
    requires c.Valid() && InOrder(trace, clock) && PrunesOnlyOlderThan(trace, c.refill - 1)
    ensures Verdicts(c, map[], trace) == WindowVerdicts(c, trace)
    decreases |trace|
  {
    if trace != [] {
      var before, e := trace[..|trace| - 1], trace[|trace| - 1];
      assert trace == before + [e];
      assert forall x :: x in before ==> x in trace;
      InOrderSplit(trace, clock);
      VerdictsAreWindows(c, before, clock);
      LastVerdict(c, map[], before, e);
      if e.Allow? {
        BucketsShowWindows(c, before, clock, e.key);
        ShownGrants(c, After(c, map[], before), WindowOf(c, before, e.key), e.key, Latest(before, clock), e.now);
      }
    }
  }

  /** The calls granted in a window are those it may grant. */
  lemma {:induction false} WindowWasGranted(c: Config, trace: seq<Event>, clock: int, key: Key, a: int, d: int)
    requires c.Valid() && InOrder(trace, clock) && PrunesOnlyOlderThan(trace, c.refill - 1)
    requires WindowOf(c, trace, key).Window? ==> a <= WindowOf(c, trace, key).start
    requires Latest(trace, clock) < a + d
    ensures var w := WindowOf(c, trace, key);
            w.Window? ==> Grants(c, map[], trace, key, a, d) >= if w.calls <= c.capacity then w.calls else c.capacity
    decreases |trace|
  {
    if trace != [] {
      var before, e := trace[..|trace| - 1], trace[|trace| - 1];
      assert trace == before + [e];
      assert forall x :: x in before ==> x in trace;
      InOrderSplit(trace, clock);
      var w := WindowOf(c, before, key);
      BucketsShowWindows(c, before, clock, key);
      LastGrant(c, map[], before, e, key, a, d);
      ShownGrants(c, After(c, map[], before), w, key, Latest(before, clock), e.now);
      if w.Window? && a <= w.start {
        WindowWasGranted(c, before, clock, key, a, d);
      }
    }
  }

  /** A call is denied only if capacity calls of its key were granted in the refill up to it. */
  lemma DeniedOnlyIfSpent(c: Config, trace: seq<Event>, clock: int, key: Key, now: int)
    requires c.Valid() && InOrder(trace, clock) && PrunesOnlyOlderThan(trace, c.refill - 1)
    requires now >= Latest(trace, clock) && !Granted(c, After(c, map[], trace), key, now)
    ensures Grants(c, map[], trace, key, now - c.refill + 1, c.refill) >= c.capacity
  {
    BucketsShowWindows(c, trace, clock, key);
    ShownGrants(c, After(c, map[], trace), WindowOf(c, trace, key), key, Latest(trace, clock), now);
    WindowWasGranted(c, trace, clock, key, now - c.refill + 1, c.refill);
  }

  // ---------- bursts ----------

  function Burst(key: Key, now: int, k: nat): seq<Event> {
    seq(k, i => Allow(key, now))
  }

  function Spent(c: Config, m: Buckets, key: Key, now: int, k: nat): Buckets {
    if k == 0 then m
    else
      var b := Found(c, m, key, now);
      m[key := b.(tokens := b.tokens - k)]
  }

  lemma SpendOne(c: Config, m: Buckets, key: Key, now: int, k: nat)
    requires c.Valid() && 0 < k <= Found(c, m, key, now).tokens
    ensures var m1 := Allowed(c, m, key, now);
            && Found(c, m1, key, now).tokens == Found(c, m, key, now).tokens - 1
            && Spent(c, m1, key, now, k - 1) == Spent(c, m, key, now, k)
  {
  }

  lemma Prepend(k: nat, tail: seq<bool>)
    ensures [true] + (seq(k, i => true) + tail) == seq(k + 1, i => true) + tail
  {
  }

  /** k calls at one instant take k tokens from a bucket that has them. */
  lemma {:induction false} BurstTakes(c: Config, m: Buckets, key: Key, now: int, k: nat, rest: seq<Event>, a: int, d: int)
    requires c.Valid() && k <= Found(c, m, key, now).tokens
    ensures Verdicts(c, m, Burst(key, now, k) + rest)
         == seq(k, i => true) + Verdicts(c, Spent(c, m, key, now, k), rest)
    ensures Grants(c, m, Burst(key, now, k) + rest, key, a, d)
         == (if a <= now < a + d then k else 0) + Grants(c, Spent(c, m, key, now, k), rest, key, a, d)
    decreases k
  {
    var trace := Burst(key, now, k) + rest;
    if k == 0 {
      assert trace == rest;
    } else {
      assert trace[0] == Allow(key, now) && trace[1..] == Burst(key, now, k - 1) + rest;
      SpendOne(c, m, key, now, k);
      hide Spent, Found, Allowed;
      var m1 := Allowed(c, m, key, now);
      BurstTakes(c, m1, key, now, k - 1, rest, a, d);
      Prepend(k - 1, Verdicts(c, Spent(c, m, key, now, k), rest));
      assert Verdicts(c, m, trace) == [true] + Verdicts(c, m1, trace[1..]);
      hide Verdicts, Grants;
    }
  }

  lemma {:induction false} BurstInOrder(key: Key, now: int, k: nat, rest: seq<Event>, clock: int)
    requires now >= clock && InOrder(rest, now)
    ensures InOrder(Burst(key, now, k) + rest, clock)
  {
    var trace := Burst(key, now, k) + rest;
    if k == 0 {
      assert trace == rest;
      assert rest != [] ==> rest[0].now >= clock;
    } else {
      assert trace[0] == Allow(key, now) && trace[1..] == Burst(key, now, k - 1) + rest;
      BurstInOrder(key, now, k - 1, rest, now);
    }
  }

  lemma {:induction false} BurstHasNoPrunes(key: Key, now: int, k: nat, rest: seq<Event>)
    ensures WithoutPrunes(Burst(key, now, k) + rest) == Burst(key, now, k) + WithoutPrunes(rest)
  {
    var trace := Burst(key, now, k) + rest;
    if k == 0 {
      assert trace == rest && Burst(key, now, 0) + WithoutPrunes(rest) == WithoutPrunes(rest);
    } else {
      assert trace[0] == Allow(key, now) && trace[1..] == Burst(key, now, k - 1) + rest;
      BurstHasNoPrunes(key, now, k - 1, rest);
      assert Burst(key, now, k) == [Allow(key, now)] + Burst(key, now, k - 1);
    }
  }

  /** A full burst, a prune while its bucket is not due, and one call more. */
  lemma PruneShows(c: Config, maxAge: int) returns (trace: seq<Event>)
    requires c.Valid() && maxAge < c.refill - 1
    ensures InOrder(trace, 0) && forall e :: e in trace && e.Prune? ==> e.maxAge == maxAge
    ensures Verdicts(c, map[], trace) != Verdicts(c, map[], WithoutPrunes(trace))
  {
    var t := if maxAge < 0 then 0 else maxAge + 1;
    var last := [Allow("", t)];
    var rest := [Prune(maxAge, t)] + last;
    assert rest[1..] == last && last[1..] == [];
    trace := Burst("", 0, c.capacity) + rest;
    assert InOrder(last, t) && InOrder(rest, 0);
    BurstInOrder("", 0, c.capacity, rest, 0);

    var m := map["" := Bucket(0, 0)];
    assert Spent(c, map[], "", 0, c.capacity) == m;
    BurstTakes(c, map[], "", 0, c.capacity, rest, 0, 0);
    assert Pruned(m, maxAge, t) == map[];
    assert Verdicts(c, map[], last) == [true] + [];
    assert Verdicts(c, m, rest) == [] + Verdicts(c, map[], last);

    assert WithoutPrunes(last) == last + [] == last;
    assert WithoutPrunes(rest) == [] + WithoutPrunes(last) == last;
    BurstHasNoPrunes("", 0, c.capacity, rest);
    BurstTakes(c, map[], "", 0, c.capacity, last, 0, 0);
    assert Verdicts(c, m, last) == [false] + [];
    var yes := seq(c.capacity, i => true);
    assert Verdicts(c, map[], trace) == yes + [true];
    assert Verdicts(c, map[], WithoutPrunes(trace)) == yes + [false];
    assert (yes + [true])[c.capacity] != (yes + [false])[c.capacity];
  }

  ghost predicate PruneChangesNothing(c: Config, maxAge: int, trace: seq<Event>) {
    InOrder(trace, 0) && (forall e :: e in trace && e.Prune? ==> e.maxAge == maxAge) ==>
      Verdicts(c, map[], trace) == Verdicts(c, map[], WithoutPrunes(trace))
  }

  /**
   * Pruning at an age never changes a verdict, in any trace, exactly when the
   * age is at least the refill interval less one nanosecond.
   */
  lemma PruneIsUnobservableIff(c: Config, maxAge: int)
    requires c.Valid()
    ensures (forall trace :: PruneChangesNothing(c, maxAge, trace)) <==> maxAge >= c.refill - 1
  {
    if maxAge >= c.refill - 1 {
      forall trace: seq<Event>
        ensures PruneChangesNothing(c, maxAge, trace)
      {
        if InOrder(trace, 0) && forall e :: e in trace && e.Prune? ==> e.maxAge == maxAge {
          Simulation(c, map[], map[], 0, trace, "", 0, 0);
        }
      }
    } else {
      var trace := PruneShows(c, maxAge);
      assert !PruneChangesNothing(c, maxAge, trace);
    }
  }

  // ---------- the sliding bound ----------

  function CeilDiv(d: int, r: int): int
    requires r > 0
  {
    (d + r - 1) / r
  }

  /**
   * The most grants in an interval of length d. Either every bucket that
   * grants in it is filled in it, at steps of refill; or the first was filled
   * before, by a call that took its first token, and then the next fill is at
   * the interval's second nanosecond or later.
   */
  function Bound(c: Config, d: int): int
    requires c.refill > 0
  {
    var within, across := c.capacity * CeilDiv(d, c.refill), c.capacity * CeilDiv(d - 1, c.refill) + c.capacity - 1;
    if within > across then within else across
  }

  /**
   * g grants since a, from e fills. Either all fills came at or after a, or the
   * first came earlier, and then it had already granted its first token.
   */
  predicate Fills(c: Config, b: Bucket, g: int, a: int, e: int) {
    && e >= 1
    && (|| ((e - 1) * c.refill <= b.lastFill - a && g <= c.capacity * e - b.tokens)
        || ((e - 2) * c.refill < b.lastFill - a && g <= c.capacity * e - b.tokens - 1))
  }

  lemma MulLess(k: int, n: int, r: int)
    requires r > 0 && k * r < n * r
    ensures k < n
  {
  }

  /** Multiplication is monotone in the number of fills. */
  lemma MulMonotone(c: int, k: int, n: int)
    requires c > 0 && k <= n
    ensures c * k <= c * n
  {
  }

  lemma CeilDivCovers(d: int, r: int)
    requires r > 0
    ensures CeilDiv(d, r) * r >= d
  {
  }

  lemma CeilDivIsLeast(d: int, r: int)
    requires r > 0 && d >= 0
    ensures CeilDiv(d, r) >= 0 && (CeilDiv(d, r) - 1) * r < d
  {
  }

  lemma FillsWithinBound(c: Config, b: Bucket, g: int, a: int, e: int, d: int)
    requires c.Valid() && Fills(c, b, g, a, e) && b.tokens >= 0 && b.lastFill < a + d && d > 0
    ensures g <= Bound(c, d)
  {
    var n, m := CeilDiv(d, c.refill), CeilDiv(d - 1, c.refill);
    CeilDivCovers(d, c.refill);
    CeilDivCovers(d - 1, c.refill);
    if (e - 1) * c.refill <= b.lastFill - a && g <= c.capacity * e - b.tokens {
      MulLess(e - 1, n, c.refill);
      MulMonotone(c.capacity, e, n);
    } else {
      if e > 1 {
        MulLess(e - 2, m, c.refill);
      }
      MulMonotone(c.capacity, e - 1, m);
      OneMoreFill(c, e - 1);
    }
  }

  lemma OneMoreFill(c: Config, e: int)
    ensures c.capacity * (e + 1) == c.capacity * e + c.capacity
    ensures e * c.refill == (e - 1) * c.refill + c.refill
    ensures (e - 1) * c.refill == (e - 2) * c.refill + c.refill
  {
  }

  /** Every bucket has had at least one token taken and none too many. */
  predicate Used(c: Config, m: Buckets) {
    forall k :: k in m ==> 0 <= m[k].tokens <= c.capacity - 1
  }

  /** A call in the interval that is granted keeps the account. */
  lemma GrantFills(c: Config, m: Buckets, key: Key, now: int, g: nat, a: int, e: int) returns (e': int)
    requires c.Valid() && Used(c, m) && Granted(c, m, key, now) && a <= now
    requires g > 0 ==> key in m && Fills(c, m[key], g, a, e)
    ensures Fills(c, Allowed(c, m, key, now)[key], g + 1, a, e')
  {
    var b := Found(c, m, key, now);
    if g == 0 {
      e' := 1;
    } else if now - m[key].lastFill >= c.refill {
      e' := e + 1;
      OneMoreFill(c, e);
    } else {
      e' := e;
    }
  }

  /** Any other call leaves the account as it is. */
  lemma OtherFills(c: Config, m: Buckets, x: Event, key: Key, g: int, a: int, d: int, e: int)
    requires c.Valid() && Used(c, m) && x.Allow? && !Counted(c, m, x, key, a, d)
    requires key in m && m[key].lastFill <= x.now < a + d && Fills(c, m[key], g, a, e) && g > 0
    ensures Fills(c, Do(c, m, x)[key], g, a, e)
  {
    OneMoreFill(c, e);
  }

  lemma UsedStays(c: Config, m: Buckets, x: Event, key: Key)
    requires c.Valid() && Used(c, m) && x.Allow? && (key in m ==> m[key].lastFill <= x.now)
    ensures Used(c, Do(c, m, x))
    ensures key in Do(c, m, x) ==> Do(c, m, x)[key].lastFill <= x.now
    ensures key in m || x.key == key ==> key in Do(c, m, x)
  {
  }

  lemma {:induction false} GrantsWithin(c: Config, m: Buckets, trace: seq<Event>, clock: int,
                                        key: Key, a: int, d: int, g: nat, e: int)
    requires c.Valid() && Used(c, m) && InOrder(trace, clock) && (forall x :: x in trace ==> x.Allow?)
    requires key in m ==> m[key].lastFill <= clock
    requires d > 0 && g <= Bound(c, d)
    requires g > 0 && clock < a + d ==> key in m && Fills(c, m[key], g, a, e)
    ensures g + Grants(c, m, trace, key, a, d) <= Bound(c, d)
    decreases |trace|
  {
    if trace != [] {
      var x := trace[0];
      assert x in trace && forall y :: y in trace[1..] ==> y in trace;
      var m' := Do(c, m, x);
      UsedStays(c, m, x, key);
      assert key in m' ==> m'[key].tokens >= 0;
      hide Bound, Used, Fills, Allowed, Found, Granted;
      if Counted(c, m, x, key, a, d) {
        var e' := GrantFills(c, m, key, x.now, g, a, e);
        FillsWithinBound(c, m'[key], g + 1, a, e', d);
        GrantsWithin(c, m', trace[1..], x.now, key, a, d, g + 1, e');
      } else {
        if g > 0 && x.now < a + d {
          OtherFills(c, m, x, key, g, a, d, e);
        }
        GrantsWithin(c, m', trace[1..], x.now, key, a, d, g, e);
      }
    }
  }

  lemma {:induction false} StrippedTrace(trace: seq<Event>, clock: int)
    requires InOrder(trace, clock)
    ensures InOrder(WithoutPrunes(trace), clock) && forall x :: x in WithoutPrunes(trace) ==> x.Allow?
  {
    if trace != [] {
      StrippedTrace(trace[1..], trace[0].now);
      var tail := WithoutPrunes(trace[1..]);
      if trace[0].Allow? {
        assert WithoutPrunes(trace)[1..] == tail;
      } else {
        assert WithoutPrunes(trace) == tail;
        assert tail != [] ==> tail[0].now >= clock;
      }
    }
  }

  lemma CeilDivMonotone(d: int, r: int)
    requires r > 0 && d > 0
    ensures CeilDiv(d - 1, r) <= CeilDiv(d, r) && CeilDiv(d, r) >= 1 && CeilDiv(r, r) == 1
  {
    CeilDivCovers(d, r);
    CeilDivIsLeast(d - 1, r);
    CeilDivCovers(r, r);
    CeilDivIsLeast(r, r);
    hide CeilDiv;
    MulLess(0, CeilDiv(d, r), r);
    MulLess(CeilDiv(d - 1, r) - 1, CeilDiv(d, r), r);
    MulLess(0, CeilDiv(r, r), r);
    MulLess(CeilDiv(r, r) - 1, 1, r);
  }

  lemma BoundAsWindows(c: Config, d: int)
    requires c.Valid() && d > 0
    ensures 0 < Bound(c, d) <= c.capacity * (CeilDiv(d, c.refill) + 1) - 1
    ensures Bound(c, c.refill) <= 2 * c.capacity - 1
  {
    CeilDivMonotone(d, c.refill);
    CeilDivMonotone(c.refill, c.refill);
    hide CeilDiv;
    var n, m := CeilDiv(d, c.refill), CeilDiv(d - 1, c.refill);
    MulMonotone(c.capacity, 1, n);
    MulMonotone(c.capacity, m, n);
    MulMonotone(c.capacity, CeilDiv(c.refill - 1, c.refill), 1);
    assert c.capacity * (n + 1) == c.capacity * n + c.capacity;
  }

  /**
   * In any half-open interval of length d a key is granted at most Bound(d)
   * calls, hence fewer than capacity * (ceil(d / refill) + 1), with pruning
   * anywhere.
   */
  lemma SlidingBound(c: Config, trace: seq<Event>, clock: int, key: Key, a: int, d: int)
    requires c.Valid() && d > 0 && InOrder(trace, clock) && PrunesOnlyOlderThan(trace, c.refill - 1)
    ensures Grants(c, map[], trace, key, a, d) <= Bound(c, d) <= c.capacity * (CeilDiv(d, c.refill) + 1) - 1
    ensures d == c.refill ==> Grants(c, map[], trace, key, a, d) <= 2 * c.capacity - 1
  {
    hide Bound, CeilDiv;
    BoundAsWindows(c, d);
    Simulation(c, map[], map[], clock, trace, key, a, d);
    StrippedTrace(trace, clock);
    GrantsWithin(c, map[], WithoutPrunes(trace), clock, key, a, d, 0, 0);
  }

  // ---------- the bound is reached ----------

  /** n whole buckets spent, one every refill from time t. */
  function Bursts(c: Config, key: Key, t: int, n: nat): seq<Event>
    requires c.Valid()
    decreases n
  {
    if n == 0 then [] else Burst(key, t, c.capacity) + Bursts(c, key, t + c.refill, n - 1)
  }

  /** From the first of n bursts to the second. */
  lemma NextBurst(c: Config, m: Buckets, key: Key, t: int, n: int)
    requires c.Valid() && n > 0 && (key in m ==> t - m[key].lastFill >= c.refill)
    ensures t <= t + (n - 1) * c.refill == t + c.refill + (n - 2) * c.refill
    ensures c.capacity * n == c.capacity + c.capacity * (n - 1)
    ensures Found(c, m, key, t) == Bucket(c.capacity, t)
    ensures Spent(c, m, key, t, c.capacity) == m[key := Bucket(0, t)]
  {
  }

  lemma {:induction false} BurstsGrant(c: Config, m: Buckets, key: Key, t: int, n: nat, a: int, d: int)
    requires c.Valid() && a <= t && (n > 0 ==> t + (n - 1) * c.refill < a + d)
    requires key in m ==> t - m[key].lastFill >= c.refill
    ensures Grants(c, m, Bursts(c, key, t, n), key, a, d) == c.capacity * n
    decreases n
  {
    if n > 0 {
      NextBurst(c, m, key, t, n);
      hide Grants, Spent, Found, Burst;
      BurstTakes(c, m, key, t, c.capacity, Bursts(c, key, t + c.refill, n - 1), a, d);
      BurstsGrant(c, m[key := Bucket(0, t)], key, t + c.refill, n - 1, a, d);
    }
  }

  lemma {:induction false} BurstsInOrder(c: Config, key: Key, t: int, n: nat, clock: int)
    requires c.Valid() && t >= clock
    ensures InOrder(Bursts(c, key, t, n), clock) && forall e :: e in Bursts(c, key, t, n) ==> e.Allow?
    decreases n
  {
    if n > 0 {
      BurstsInOrder(c, key, t + c.refill, n - 1, t);
      BurstInOrder(key, t, c.capacity, Bursts(c, key, t + c.refill, n - 1), clock);
    }
  }

  /** Only fills within the interval: whole buckets from its first instant on. */
  lemma BoundFromWithin(c: Config, key: Key, d: int) returns (trace: seq<Event>)
    requires c.Valid() && d > 0
    ensures InOrder(trace, 0) && forall e :: e in trace ==> e.Allow?
    ensures Grants(c, map[], trace, key, 0, d) == c.capacity * CeilDiv(d, c.refill)
  {
    CeilDivIsLeast(d, c.refill);
    trace := Bursts(c, key, 0, CeilDiv(d, c.refill));
    BurstsGrant(c, map[], key, 0, CeilDiv(d, c.refill), 0, d);
    BurstsInOrder(c, key, 0, CeilDiv(d, c.refill), 0);
  }

  /** One call at time 0, the rest of its bucket just before it is due, and whole buckets from then on. */
  lemma BoundFromAcross(c: Config, key: Key, d: int) returns (trace: seq<Event>)
    requires c.Valid() && c.refill >= 2 && d > 0
    ensures InOrder(trace, 0) && forall e :: e in trace ==> e.Allow?
    ensures Grants(c, map[], trace, key, c.refill - 1, d)
         == c.capacity * CeilDiv(d - 1, c.refill) + c.capacity - 1
  {
    var a, r, n := c.refill - 1, c.refill, c.capacity;
    var k := CeilDiv(d - 1, r);
    CeilDivIsLeast(d - 1, r);
    var third := Bursts(c, key, r, k);
    var second := Burst(key, a, n - 1) + third;
    trace := Burst(key, 0, 1) + second;
    BurstsInOrder(c, key, r, k, a);
    BurstInOrder(key, a, n - 1, third, 0);
    BurstInOrder(key, 0, 1, second, 0);

    var m1: Buckets := map[key := Bucket(n - 1, 0)];
    assert Spent(c, map[], key, 0, 1) == m1;
    var m2 := if n == 1 then m1 else m1[key := Bucket(0, 0)];
    assert Spent(c, m1, key, a, n - 1) == m2;
    BurstTakes(c, map[], key, 0, 1, second, a, d);
    BurstTakes(c, m1, key, a, n - 1, third, a, d);
    assert k > 0 ==> r + (k - 1) * r < a + d;
    BurstsGrant(c, m2, key, r, k, a, d);
  }

  /** Every limiter and every interval length has a trace that meets the bound, without any pruning. */
  lemma SlidingBoundIsMet(c: Config, key: Key, d: int) returns (trace: seq<Event>, a: int)
    requires c.Valid() && d > 0
    ensures InOrder(trace, 0) && forall e :: e in trace ==> e.Allow?
    ensures Grants(c, map[], trace, key, a, d) == Bound(c, d)
  {
    OneMoreFill(c, d - 1);
    if c.refill == 1 || c.capacity * CeilDiv(d, c.refill) == Bound(c, d) {
      assert c.refill == 1 ==> CeilDiv(d, 1) == d && CeilDiv(d - 1, 1) == d - 1;
      a := 0;
      trace := BoundFromWithin(c, key, d);
    } else {
      a := c.refill - 1;
      trace := BoundFromAcross(c, key, d);
    }
  }

  ghost predicate AlwaysWithin(c: Config, key: Key, d: int, bound: int, trace: seq<Event>, clock: int, a: int) {
    InOrder(trace, clock) && PrunesOnlyOlderThan(trace, c.refill - 1) ==>
      Grants(c, map[], trace, key, a, d) <= bound
  }

  /** A number bounds the grants of every trace in every interval of length d if and only if it is at least Bound(d). */
  lemma SlidingBoundIff(c: Config, key: Key, d: int, bound: int)
    requires c.Valid() && d > 0
    ensures (forall trace, clock, a :: AlwaysWithin(c, key, d, bound, trace, clock, a)) <==> bound >= Bound(c, d)
  {
    hide Bound, InOrder, Grants;
    forall trace, clock, a | bound >= Bound(c, d)
      ensures AlwaysWithin(c, key, d, bound, trace, clock, a)
    {
      if InOrder(trace, clock) && PrunesOnlyOlderThan(trace, c.refill - 1) {
        SlidingBound(c, trace, clock, key, a, d);
      }
    }
    var worst, a := SlidingBoundIsMet(c, key, d);
    assert bound < Bound(c, d) ==> !AlwaysWithin(c, key, d, bound, worst, 0, a);
  }
}
