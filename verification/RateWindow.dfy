/**
 * The per-IP rate tracker, internal/metrics/metrics.go: one bucket per address
 * and second, pruned 90 seconds back. inc is one atomic step and the clock,
 * read in whole seconds, does not go back.
 */
module RateWindow {
  import opened Common

  type IP = string
  datatype Kind = Connection | Udp
  datatype Slots = Slots(conns: nat, udp: nat)
  type Buckets = map<int, Slots>

  function Slot(x: Slots, kind: Kind): nat {
    if kind == Connection then x.conns else x.udp
  }

  function Bumped(x: Slots, kind: Kind): Slots {
    if kind == Connection then x.(conns := x.conns + 1) else x.(udp := x.udp + 1)
  }

  // ---------- what the operations compute ----------

  function BucketsOf(ips: map<IP, Buckets>, ip: IP): Buckets {
    if ip in ips then ips[ip] else map[]
  }

  function Counted(b: Buckets, kind: Kind, second: int): Buckets {
    b[second := Bumped(if second in b then b[second] else Slots(0, 0), kind)]
  }

  function Incremented(ips: map<IP, Buckets>, ip: IP, kind: Kind, second: int): map<IP, Buckets> {
    ips[ip := Counted(BucketsOf(ips, ip), kind, second)]
  }

  function Kept(b: Buckets, cutoff: int): Buckets {
    map s | s in b && s >= cutoff :: b[s]
  }

  function Pruned(ips: map<IP, Buckets>, cutoff: int): map<IP, Buckets> {
    map ip | ip in ips && Kept(ips[ip], cutoff) != map[] :: Kept(ips[ip], cutoff)
  }

  lemma NonEmpty(s: set<int>)
    requires s != {}
    ensures exists x :: x in s
  {
    var x := Member(s);
    assert x in s;
  }

  ghost function Total(b: Buckets, kind: Kind, seconds: set<int>): nat
    requires seconds <= b.Keys
  {
    if seconds == {} then 0
    else
      NonEmpty(seconds);
      var s :| s in seconds;
      Slot(b[s], kind) + Total(b, kind, seconds - {s})
  }

  /** What sum returns at a time now with window w, now - w being from. */
  ghost function SumFrom(b: Buckets, kind: Kind, from: int): nat {
    Total(b, kind, set s | s in b && s >= from)
  }

  lemma {:induction false} TotalPick(b: Buckets, kind: Kind, seconds: set<int>, s: int)
    requires seconds <= b.Keys && s in seconds
    ensures Total(b, kind, seconds) == Slot(b[s], kind) + Total(b, kind, seconds - {s})
  {
    var r :| r in seconds && Total(b, kind, seconds) == Slot(b[r], kind) + Total(b, kind, seconds - {r});
    if r != s {
      TotalPick(b, kind, seconds - {r}, s);
      TotalPick(b, kind, seconds - {s}, r);
      assert seconds - {r} - {s} == seconds - {s} - {r};
    }
  }

  lemma {:induction false} TotalSame(b: Buckets, c: Buckets, kind: Kind, seconds: set<int>)
    requires seconds <= b.Keys && seconds <= c.Keys
    requires forall s :: s in seconds ==> Slot(b[s], kind) == Slot(c[s], kind)
    ensures Total(b, kind, seconds) == Total(c, kind, seconds)
  {
    if seconds != {} {
      NonEmpty(seconds);
      var s :| s in seconds;
      TotalPick(b, kind, seconds, s);
      TotalPick(c, kind, seconds, s);
      TotalSame(b, c, kind, seconds - {s});
    }
  }

  // ---------- the code ----------

  class PerIpTracker {
    var ips: map<IP, Buckets>

    constructor ()
      ensures ips == map[]
    {
      ips := map[];
    }

    method Inc(ip: IP, kind: Kind, second: int)
      modifies this
      ensures ips == Incremented(old(ips), ip, kind, second)
    {
      if ip !in ips {
        ips := ips[ip := map[]];
      }
      var b := ips[ip];
      if second !in b {
        b := b[second := Slots(0, 0)];
      }
      b := b[second := Bumped(b[second], kind)];
      assert b == Counted(BucketsOf(old(ips), ip), kind, second);
      ips := ips[ip := b];
    }

    method Sum(ip: IP, kind: Kind, now: int, seconds: int) returns (total: nat)
      ensures total == SumFrom(BucketsOf(ips, ip), kind, now - seconds)
    {
      total := 0;
      if ip !in ips {
        return;
      }
      var b := ips[ip];
      var left := b.Keys;
      while left != {}
        invariant left <= b.Keys
        invariant total == Total(b, kind, set s | s in b && s !in left && s >= now - seconds)
        decreases left
      {
        NonEmpty(left);
        var s :| s in left;
        ghost var before := set r | r in b && r !in left && r >= now - seconds;
        left := left - {s};
        ghost var after := set r | r in b && r !in left && r >= now - seconds;
        if now - s <= seconds {
          TotalPick(b, kind, after, s);
          assert after - {s} == before;
          total := total + Slot(b[s], kind);
        } else {
          assert after == before;
        }
      }
      assert (set s | s in b && s !in left && s >= now - seconds) == (set s | s in b && s >= now - seconds);
    }

    method Prune(cutoff: int)
      modifies this
      ensures ips == Pruned(old(ips), cutoff)
    {
      ghost var was := ips;
      var left := ips.Keys;
      while left != {}
        invariant left <= ips.Keys <= was.Keys
        invariant forall ip :: ip in left ==> ips[ip] == was[ip]
        invariant forall ip :: ip in was.Keys - left ==>
                    if Kept(was[ip], cutoff) == map[] then ip !in ips
                    else ip in ips && ips[ip] == Kept(was[ip], cutoff)
        decreases left
      {
        var ip :| ip in left;
        var b := PruneBuckets(ips[ip], cutoff);
        ips := ips[ip := b];
        if b == map[] {
          ips := ips - {ip};
        }
        left := left - {ip};
      }
    }
  }

  method PruneBuckets(b: Buckets, cutoff: int) returns (c: Buckets)
    ensures c == Kept(b, cutoff)
  {
    c := b;
    var left := b.Keys;
    while left != {}
      invariant left <= c.Keys <= b.Keys
      invariant forall s :: s in c ==> c[s] == b[s]
      invariant forall s :: s in b.Keys - left ==> (s in c <==> s >= cutoff)
      decreases left
    {
      NonEmpty(left);
      var s :| s in left;
      if s < cutoff {
        c := c - {s};
      }
      left := left - {s};
    }
    forall s: int
      ensures s in c <==> s in Kept(b, cutoff)
    {
      assert s in b ==> s in b.Keys - left;
    }
    assert c == Kept(b, cutoff);
  }

  // ---------- the log it stands for ----------

  datatype Event = Event(ip: IP, kind: Kind, at: int)

  /** How many events of this address and kind happened at or after a time. */
  function CountSince(log: seq<Event>, ip: IP, kind: Kind, from: int): nat {
    if log == [] then 0
    else
      var e := log[|log| - 1];
      CountSince(log[..|log| - 1], ip, kind, from) + if e.ip == ip && e.kind == kind && e.at >= from then 1 else 0
  }

  lemma CountOne(log: seq<Event>, e: Event, ip: IP, kind: Kind, from: int)
    ensures CountSince(log + [e], ip, kind, from)
         == CountSince(log, ip, kind, from) + if e.ip == ip && e.kind == kind && e.at >= from then 1 else 0
  {
    assert (log + [e])[..|log|] == log;
  }

  lemma {:induction false} CountFalls(log: seq<Event>, ip: IP, kind: Kind, from: int, later: int)
    requires from <= later
    ensures CountSince(log, ip, kind, later) <= CountSince(log, ip, kind, from)
  {
    if log != [] {
      CountFalls(log[..|log| - 1], ip, kind, from, later);
    }
  }

  /** From time cut on, the buckets and the log count alike; before it there are no buckets. */
  ghost predicate Agrees(ips: map<IP, Buckets>, log: seq<Event>, cut: int) {
    && (forall ip, kind, from :: from >= cut ==>
          SumFrom(BucketsOf(ips, ip), kind, from) == CountSince(log, ip, kind, from))
    && (forall ip :: ip in ips ==> ips[ip] != map[] && forall s :: s in ips[ip] ==> s >= cut)
  }

  lemma SumOfCounted(b: Buckets, kind: Kind, second: int, k: Kind, from: int)
    ensures SumFrom(Counted(b, kind, second), k, from)
         == SumFrom(b, k, from) + if k == kind && second >= from then 1 else 0
  {
    var c := Counted(b, kind, second);
    var old', new' := set s | s in b && s >= from, set s | s in c && s >= from;
    if second < from {
      assert new' == old';
      TotalSame(b, c, k, old');
    } else {
      assert new' - {second} == old' - {second};
      TotalPick(c, k, new', second);
      TotalSame(b, c, k, old' - {second});
      if second in b {
        TotalPick(b, k, old', second);
      } else {
        assert old' - {second} == old';
      }
    }
  }

  lemma SumOfKept(b: Buckets, cutoff: int, kind: Kind, from: int)
    requires from >= cutoff
    ensures SumFrom(Kept(b, cutoff), kind, from) == SumFrom(b, kind, from)
  {
    var c := Kept(b, cutoff);
    var seconds := set s | s in b && s >= from;
    assert (set s | s in c && s >= from) == seconds;
    TotalSame(b, c, kind, seconds);
  }

  lemma IncAgrees(ips: map<IP, Buckets>, log: seq<Event>, cut: int, e: Event)
    requires Agrees(ips, log, cut) && e.at >= cut
    ensures Agrees(Incremented(ips, e.ip, e.kind, e.at), log + [e], cut)
  {
    var t := Incremented(ips, e.ip, e.kind, e.at);
    forall ip, kind, from | from >= cut
      ensures SumFrom(BucketsOf(t, ip), kind, from) == CountSince(log + [e], ip, kind, from)
    {
      CountOne(log, e, ip, kind, from);
      SumOfCounted(BucketsOf(ips, e.ip), e.kind, e.at, kind, from);
    }
  }

  lemma PruneAgrees(ips: map<IP, Buckets>, log: seq<Event>, cut: int, cutoff: int)
    requires Agrees(ips, log, cut) && cut <= cutoff
    ensures Agrees(Pruned(ips, cutoff), log, cutoff)
  {
    var t := Pruned(ips, cutoff);
    forall ip, kind, from | from >= cutoff
      ensures SumFrom(BucketsOf(t, ip), kind, from) == CountSince(log, ip, kind, from)
    {
      SumOfKept(BucketsOf(ips, ip), cutoff, kind, from);
      assert BucketsOf(t, ip) == Kept(BucketsOf(ips, ip), cutoff);
    }
  }

  // ---------- runs ----------

  const RETENTION: int := 90

  datatype Action = Inc(ip: IP, kind: Kind, now: int) | Prune(now: int)

  datatype State = State(ips: map<IP, Buckets>, log: seq<Event>, clock: int)

  predicate Can(s: State, a: Action) {
    a.now >= s.clock
  }

  function Do(s: State, a: Action): State {
    match a
    case Inc(ip, kind, now) => State(Incremented(s.ips, ip, kind, now), s.log + [Event(ip, kind, now)], now)
    case Prune(now) => State(Pruned(s.ips, now - RETENTION), s.log, now)
  }

  predicate CanAll(s: State, run: seq<Action>)
    decreases |run|
  {
    run == [] || (Can(s, run[0]) && CanAll(Do(s, run[0]), run[1..]))
  }

  function DoAll(s: State, run: seq<Action>): State
    decreases |run|
  {
    if run == [] then s else DoAll(Do(s, run[0]), run[1..])
  }

  /** No bucket is later than the clock. */
  predicate NotAhead(s: State) {
    forall ip, second :: ip in s.ips && second in s.ips[ip] ==> second <= s.clock
  }

  ghost predicate Inv(s: State) {
    NotAhead(s) && exists cut :: cut <= s.clock - RETENTION && Agrees(s.ips, s.log, cut)
  }

  lemma ActionKeeps(s: State, a: Action)
    requires Inv(s) && Can(s, a)
    ensures Inv(Do(s, a))
  {
    var cut :| cut <= s.clock - RETENTION && Agrees(s.ips, s.log, cut);
    match a
    case Inc(ip, kind, now) => IncAgrees(s.ips, s.log, cut, Event(ip, kind, now));
    case Prune(now) => PruneAgrees(s.ips, s.log, cut, now - RETENTION);
  }

  lemma {:induction false} RunKeeps(s: State, run: seq<Action>)
    requires Inv(s) && CanAll(s, run)
    ensures Inv(DoAll(s, run))
    decreases |run|
  {
    if run != [] {
      ActionKeeps(s, run[0]);
      RunKeeps(Do(s, run[0]), run[1..]);
    }
  }

  lemma EmptyInv(clock: int)
    ensures Inv(State(map[], [], clock))
  {
    assert forall kind, from :: SumFrom(map[], kind, from) == 0;
    assert Agrees(map[], [], clock - RETENTION);
  }

  /** sum with window w at time now, against the log. */
  ghost predicate SumIsExact(s: State, ip: IP, kind: Kind, now: int, w: int) {
    SumFrom(BucketsOf(s.ips, ip), kind, now - w) == CountSince(s.log, ip, kind, now - w)
  }

  lemma InvSumIsExact(s: State, ip: IP, kind: Kind, now: int, w: int)
    requires Inv(s) && now >= s.clock && w <= RETENTION
    ensures SumIsExact(s, ip, kind, now, w)
  {
  }

  /**
   * Whatever was counted and pruned, a sum over a window of w is the number of
   * logged events now - t <= w for every address, kind and time, if and only
   * if w is at most the 90 seconds kept.
   */
  lemma WindowIsExactIff(w: int)
    ensures (forall run, clock, ip, kind, now ::
               CanAll(State(map[], [], clock), run) && now >= DoAll(State(map[], [], clock), run).clock
               ==> SumIsExact(DoAll(State(map[], [], clock), run), ip, kind, now, w))
       <==> w <= RETENTION
  {
    if w <= RETENTION {
      forall run, clock, ip, kind, now | CanAll(State(map[], [], clock), run)
        && now >= DoAll(State(map[], [], clock), run).clock
        ensures SumIsExact(DoAll(State(map[], [], clock), run), ip, kind, now, w)
      {
        EmptyInv(clock);
        RunKeeps(State(map[], [], clock), run);
        InvSumIsExact(DoAll(State(map[], [], clock), run), ip, kind, now, w);
      }
    } else {
      PruneShowsBeyondRetention(w);
    }
  }

  function CountAt(log: seq<Event>, ip: IP, kind: Kind, at: int): nat {
    if log == [] then 0
    else
      var e := log[|log| - 1];
      CountAt(log[..|log| - 1], ip, kind, at) + if e.ip == ip && e.kind == kind && e.at == at then 1 else 0
  }

  lemma {:induction false} FirstSecond(log: seq<Event>, ip: IP, kind: Kind, from: int)
    ensures CountSince(log, ip, kind, from) == CountAt(log, ip, kind, from) + CountSince(log, ip, kind, from + 1)
    ensures CountAt(log, ip, kind, from) == 0
       <==> forall i :: 0 <= i < |log| && log[i].ip == ip && log[i].kind == kind ==> log[i].at != from
  {
    if log != [] {
      var before := log[..|log| - 1];
      FirstSecond(before, ip, kind, from);
      assert forall i :: 0 <= i < |before| ==> before[i] == log[i];
      if CountAt(before, ip, kind, from) > 0 {
        var i :| 0 <= i < |before| && before[i].ip == ip && before[i].kind == kind && before[i].at == from;
        assert log[i].at == from;
      }
    }
  }

  /**
   * A sum for w seconds takes in one second more: in any run it is the number
   * of events in the last w seconds, the current one included, if and only if
   * none was logged exactly w seconds ago.
   */
  lemma SumIsLastSecondsIff(run: seq<Action>, clock: int, ip: IP, kind: Kind, now: int, w: int)
    requires CanAll(State(map[], [], clock), run) && now >= DoAll(State(map[], [], clock), run).clock
    requires w <= RETENTION
    ensures var s := DoAll(State(map[], [], clock), run);
            SumFrom(BucketsOf(s.ips, ip), kind, now - w) == CountSince(s.log, ip, kind, now - w + 1)
            <==> forall i :: 0 <= i < |s.log| && s.log[i].ip == ip && s.log[i].kind == kind ==> s.log[i].at != now - w
  {
    var s := DoAll(State(map[], [], clock), run);
    EmptyInv(clock);
    RunKeeps(State(map[], [], clock), run);
    InvSumIsExact(s, ip, kind, now, w);
    FirstSecond(s.log, ip, kind, now - w);
  }

  /** One event a second ago is counted as of the current second. */
  lemma LastSecondIsCounted(ip: IP, kind: Kind)
    ensures var run := [Inc(ip, kind, 0)];
            var s := DoAll(State(map[], [], 0), run);
            && CanAll(State(map[], [], 0), run) && s.clock <= 1
            && SumFrom(BucketsOf(s.ips, ip), kind, 1 - 1) == 1 && CountSince(s.log, ip, kind, 1) == 0
  {
    var s0, a := State(map[], [], 0), Inc(ip, kind, 0);
    var s1 := Do(s0, a);
    assert [a][1..] == [];
    assert DoAll(s0, [a]) == DoAll(s1, []) == s1;
    assert s1.log == [Event(ip, kind, 0)] && s1.log[..0] == [];
    assert CountSince([], ip, kind, 0) == 0 == CountSince([], ip, kind, 1);
    EmptyInv(0);
    RunKeeps(s0, [a]);
    InvSumIsExact(s1, ip, kind, 1, 1);
  }

  /** An event as old as the window, pruned because it is older than 90 seconds. */
  lemma PruneShowsBeyondRetention(w: int)
    requires w > RETENTION
    ensures var run := [Inc("", Udp, 0), Prune(w)];
            && CanAll(State(map[], [], 0), run) && DoAll(State(map[], [], 0), run).clock == w
            && !SumIsExact(DoAll(State(map[], [], 0), run), "", Udp, w, w)
  {
    var s0 := State(map[], [], 0);
    var run := [Inc("", Udp, 0), Prune(w)];
    var s1 := Do(s0, run[0]);
    var s2 := Do(s1, run[1]);
    assert run[1..] == [Prune(w)] && run[1..][1..] == [];
    assert DoAll(s0, run) == DoAll(s1, run[1..]) == DoAll(s2, []);
    assert s2.ips == map[];
    assert s1.log == [Event("", Udp, 0)];
    assert CountSince([], "", Udp, 0) == 0;
    assert s1.log[..0] == [];
    assert CountSince(s1.log, "", Udp, 0) == 1;
    assert SumFrom(map[], Udp, 0) == 0;
  }

  /** Right after a prune, every address left has between 1 and 91 buckets. */
  lemma BucketsAfterPrune(clock: int, run: seq<Action>, now: int, ip: IP)
    requires CanAll(State(map[], [], clock), run) && now >= DoAll(State(map[], [], clock), run).clock
    requires ip in Do(DoAll(State(map[], [], clock), run), Prune(now)).ips
    ensures 1 <= |Do(DoAll(State(map[], [], clock), run), Prune(now)).ips[ip]| <= RETENTION + 1
  {
    var s := DoAll(State(map[], [], clock), run);
    EmptyInv(clock);
    RunKeeps(State(map[], [], clock), run);
    var b := Do(s, Prune(now)).ips[ip];
    assert b == Kept(s.ips[ip], now - RETENTION) != map[];
    var span := Span(now - RETENTION, RETENTION + 1);
    assert forall x :: x in b ==> x in span;
    SubsetSize(b.Keys, span);
    assert |b.Keys| == |b|;
  }

  function Span(lo: int, n: nat): (r: set<int>)
    ensures |r| == n && forall x :: x in r <==> lo <= x < lo + n
  {
    if n == 0 then {} else Span(lo, n - 1) + {lo + n - 1}
  }
}
