/**
 * The per-IP packet limit of handlePacket, internal/proxy/udp.go, when n
 * forwarders share one rate tracker. Each handles one packet at a time; the
 * check against the tracker and the increment are separate actions.
 */
module UdpRate {
  import opened RateWindow

  /** Between packets, or past the check for a packet from ip and not yet counted. */
  datatype Phase = Ready | Passed(ip: IP)

  datatype State = Rate(max: int, tracker: RateWindow.State, phases: seq<Phase>)

  datatype Action =
    | Check(f: nat, ip: IP)                  // UDPPacketsPerSec(ip) is not over max
    | Count(f: nat)                          // IncUDPPacket
    | Abandon(f: nat)                        // no session could be had
    | Connect(ip: IP)                        // a TCP connection is counted
    | PruneNow
    | Tick(now: int)

  function Clock(s: State): int {
    s.tracker.clock
  }

  /** UDPPacketsPerSec: a window of 1 takes in the current second and the one before. */
  ghost function PacketsPerSec(s: State, ip: IP): nat {
    SumFrom(BucketsOf(s.tracker.ips, ip), Udp, Clock(s) - 1)
  }

  ghost predicate Can(s: State, a: Action) {
    match a
    case Check(f, ip) => f < |s.phases| && s.phases[f] == Ready && PacketsPerSec(s, ip) <= s.max
    case Count(f) => f < |s.phases| && s.phases[f].Passed?
    case Abandon(f) => f < |s.phases| && s.phases[f].Passed?
    case Connect(_) => true
    case PruneNow => true
    case Tick(now) => now >= Clock(s)
  }

  ghost function Do(s: State, a: Action): State
    requires Can(s, a)
  {
    match a
    case Check(f, ip) => s.(phases := s.phases[f := Passed(ip)])
    case Count(f) =>
      s.(tracker := RateWindow.Do(s.tracker, Inc(s.phases[f].ip, Udp, Clock(s))), phases := s.phases[f := Ready])
    case Abandon(f) => s.(phases := s.phases[f := Ready])
    case Connect(ip) => s.(tracker := RateWindow.Do(s.tracker, Inc(ip, Connection, Clock(s))))
    case PruneNow => s.(tracker := RateWindow.Do(s.tracker, Prune(Clock(s))))
    case Tick(now) => s.(tracker := s.tracker.(clock := now))
  }

  ghost function Init(n: nat, max: int): State {
    Rate(max, RateWindow.State.State(map[], [], 0), seq(n, i => Ready))
  }

  /** Packets of ip counted in seconds t - 1 and t together. */
  function Counted2(log: seq<Event>, ip: IP, t: int): nat {
    if log == [] then 0
    else
      var e := log[|log| - 1];
      Counted2(log[..|log| - 1], ip, t) + if e.ip == ip && e.kind == Udp && t - 1 <= e.at <= t then 1 else 0
  }

  function InFlight(phases: seq<Phase>, ip: IP): nat {
    if phases == [] then 0 else InFlight(phases[1..], ip) + if phases[0] == Passed(ip) then 1 else 0
  }

  lemma {:induction false} InFlightBound(phases: seq<Phase>, ip: IP, f: nat)
    requires f < |phases|
    ensures InFlight(phases, ip) <= |phases|
    ensures phases[f] != Passed(ip) ==> InFlight(phases, ip) <= |phases| - 1
  {
    if |phases| > 1 {
      InFlightBound(phases[1..], ip, if f == 0 then 0 else f - 1);
    } else {
      assert InFlight(phases[1..], ip) == 0;
    }
  }

  lemma {:induction false} InFlightUpdate(phases: seq<Phase>, f: nat, p: Phase, ip: IP)
    requires f < |phases|
    ensures InFlight(phases[f := p], ip)
         == InFlight(phases, ip) - (if phases[f] == Passed(ip) then 1 else 0) + if p == Passed(ip) then 1 else 0
  {
    if f == 0 {
      assert phases[f := p][1..] == phases[1..];
    } else {
      assert phases[f := p][1..] == phases[1..][f - 1 := p];
      InFlightUpdate(phases[1..], f - 1, p, ip);
    }
  }

  lemma {:induction false} Counted2Within(log: seq<Event>, ip: IP, t: int)
    ensures Counted2(log, ip, t) <= CountSince(log, ip, Udp, t - 1)
  {
    if log != [] {
      Counted2Within(log[..|log| - 1], ip, t);
    }
  }

  lemma Counted2One(log: seq<Event>, e: Event, ip: IP, t: int)
    ensures Counted2(log + [e], ip, t)
         == Counted2(log, ip, t) + if e.ip == ip && e.kind == Udp && t - 1 <= e.at <= t then 1 else 0
  {
    assert (log + [e])[..|log|] == log;
  }

  // ---------- the bound ----------

  /** What is counted since t - 1 and what has passed the check, together. */
  function Load(s: State, ip: IP, t: int): nat {
    CountSince(s.tracker.log, ip, Udp, t - 1) + InFlight(s.phases, ip)
  }

  /** The seconds that are not over. */
  ghost predicate OpenBounded(s: State) {
    forall ip, t :: t >= Clock(s) ==> Load(s, ip, t) <= s.max + |s.phases|
  }

  ghost predicate AllBounded(s: State) {
    forall ip, t :: Counted2(s.tracker.log, ip, t) <= s.max + |s.phases|
  }

  ghost predicate Inv(s: State) {
    RateWindow.Inv(s.tracker) && OpenBounded(s) && AllBounded(s)
  }

  lemma CheckKeeps(s: State, a: Action)
    requires a.Check? && Inv(s) && Can(s, a)
    ensures Inv(Do(s, a))
  {
    var u := Do(s, a);
    forall ip, t | t >= Clock(u)
      ensures Load(u, ip, t) <= u.max + |u.phases|
    {
      InFlightUpdate(s.phases, a.f, Passed(a.ip), ip);
      assert Load(s, ip, t) <= s.max + |s.phases|;
      if ip == a.ip {
        InvSumIsExact(s.tracker, ip, Udp, Clock(s), 1);
        CountFalls(s.tracker.log, ip, Udp, Clock(s) - 1, t - 1);
        InFlightBound(s.phases, ip, a.f);
      }
    }
  }

  lemma CountKeeps(s: State, a: Action)
    requires (a.Count? || a.Connect?) && Inv(s) && Can(s, a)
    ensures Inv(Do(s, a))
  {
    var u := Do(s, a);
    var e := if a.Count? then Event(s.phases[a.f].ip, Udp, Clock(s)) else Event(a.ip, Connection, Clock(s));
    RateWindow.ActionKeeps(s.tracker, Inc(e.ip, e.kind, e.at));
    forall ip, t | t >= Clock(u)
      ensures Load(u, ip, t) <= u.max + |u.phases|
    {
      assert Load(s, ip, t) <= s.max + |s.phases|;
      CountOne(s.tracker.log, e, ip, Udp, t - 1);
      if a.Count? {
        InFlightUpdate(s.phases, a.f, Ready, ip);
      }
    }
    forall ip, t
      ensures Counted2(u.tracker.log, ip, t) <= u.max + |u.phases|
    {
      Counted2One(s.tracker.log, e, ip, t);
      Counted2Within(u.tracker.log, ip, t);
      assert t >= Clock(u) ==> Load(u, ip, t) <= u.max + |u.phases|;
    }
  }

  lemma ActionKeeps(s: State, a: Action)
    requires Inv(s) && Can(s, a)
    ensures Inv(Do(s, a))
  {
    match a
    case Check(_, _) => CheckKeeps(s, a);
    case Count(_) => CountKeeps(s, a);
    case Connect(_) => CountKeeps(s, a);
    case Abandon(f) =>
      forall ip
        ensures InFlight(Do(s, a).phases, ip) <= InFlight(s.phases, ip)
      {
        InFlightUpdate(s.phases, f, Ready, ip);
      }
      assert forall ip, t :: Load(Do(s, a), ip, t) <= Load(s, ip, t);
    case PruneNow =>
      RateWindow.ActionKeeps(s.tracker, Prune(Clock(s)));
      assert forall ip, t :: Load(Do(s, a), ip, t) == Load(s, ip, t);
    case Tick(_) => assert forall ip, t :: Load(Do(s, a), ip, t) == Load(s, ip, t);
  }

  lemma InitInv(n: nat, max: int)
    requires max > 0
    ensures Inv(Init(n, max))
  {
    EmptyInv(0);
    forall ip
      ensures InFlight(Init(n, max).phases, ip) <= n
    {
      if n > 0 {
        InFlightBound(Init(n, max).phases, ip, 0);
      }
    }
  }

  // ---------- runs ----------

  ghost predicate CanAll(s: State, run: seq<Action>)
    decreases |run|
  {
    run == [] || (Can(s, run[0]) && CanAll(Do(s, run[0]), run[1..]))
  }

  ghost function DoAll(s: State, run: seq<Action>): State
    requires CanAll(s, run)
    decreases |run|
  {
    if run == [] then s else DoAll(Do(s, run[0]), run[1..])
  }

  ghost predicate Reachable(n: nat, max: int, s: State) {
    exists run :: CanAll(Init(n, max), run) && DoAll(Init(n, max), run) == s
  }

  lemma {:induction false} RunKeeps(s: State, run: seq<Action>)
    requires Inv(s) && CanAll(s, run)
    ensures Inv(DoAll(s, run)) && DoAll(s, run).max == s.max && |DoAll(s, run).phases| == |s.phases|
    decreases |run|
  {
    if run != [] {
      ActionKeeps(s, run[0]);
      RunKeeps(Do(s, run[0]), run[1..]);
    }
  }

  /** No address has more than max + n packets counted in two adjacent seconds, in any run. */
  lemma PacketsInTwoSeconds(n: nat, max: int, s: State, ip: IP, t: int)
    requires max > 0 && Reachable(n, max, s)
    ensures Counted2(s.tracker.log, ip, t) <= max + n
  {
    var run :| CanAll(Init(n, max), run) && DoAll(Init(n, max), run) == s;
    InitInv(n, max);
    RunKeeps(Init(n, max), run);
  }

  // ---------- the bound is reached ----------

  lemma {:induction false} RunAppend(s: State, run: seq<Action>, a: Action)
    requires CanAll(s, run) && Can(DoAll(s, run), a)
    ensures CanAll(s, run + [a]) && DoAll(s, run + [a]) == Do(DoAll(s, run), a)
    decreases |run|
  {
    if run == [] {
      assert run + [a] == [a];
    } else {
      assert (run + [a])[1..] == run[1..] + [a];
      RunAppend(Do(s, run[0]), run[1..], a);
    }
  }

  lemma Next(n: nat, max: int, s: State, a: Action) returns (u: State)
    requires Reachable(n, max, s) && Can(s, a)
    ensures Reachable(n, max, u) && u == Do(s, a)
  {
    var run :| CanAll(Init(n, max), run) && DoAll(Init(n, max), run) == s;
    RunAppend(Init(n, max), run, a);
    u := Do(s, a);
  }

  /** All in second 0: k packets of ip counted, and the forwarders from j on ready. */
  ghost predicate At(n: nat, max: int, s: State, ip: IP, k: nat, j: nat) {
    && Reachable(n, max, s) && RateWindow.Inv(s.tracker) && s.max == max && |s.phases| == n && Clock(s) == 0
    && CountSince(s.tracker.log, ip, Udp, -1) == Counted2(s.tracker.log, ip, 0) == k
    && (forall f :: 0 <= f < j && f < n ==> s.phases[f] == Passed(ip))
    && (forall f :: j <= f < n ==> s.phases[f] == Ready)
  }

  lemma CheckOne(n: nat, max: int, s: State, ip: IP, k: nat, j: nat) returns (u: State)
    requires At(n, max, s, ip, k, j) && k <= max && j < n
    ensures At(n, max, u, ip, k, j + 1)
  {
    InvSumIsExact(s.tracker, ip, Udp, 0, 1);
    u := Next(n, max, s, Check(j, ip));
  }

  /** The last forwarder to have passed counts its packet. */
  lemma CountLast(n: nat, max: int, s: State, ip: IP, k: nat, j: nat) returns (u: State)
    requires At(n, max, s, ip, k, j + 1) && j < n
    ensures At(n, max, u, ip, k + 1, j)
  {
    var e := Event(ip, Udp, 0);
    CountOne(s.tracker.log, e, ip, Udp, -1);
    Counted2One(s.tracker.log, e, ip, 0);
    RateWindow.ActionKeeps(s.tracker, Inc(ip, Udp, 0));
    assert Can(s, Count(j)) && s.phases[j] == Passed(ip);
    hide RateWindow.Inv, CountSince, Counted2, Incremented, Reachable, PacketsPerSec;
    u := Next(n, max, s, Count(j));
    assert u.tracker == RateWindow.Do(s.tracker, Inc(ip, Udp, 0)) && u.tracker.log == s.tracker.log + [e];
  }

  lemma {:induction false} CountUpTo(n: nat, max: int, ip: IP, k: nat) returns (s: State)
    requires n > 0 && k <= max
    ensures At(n, max, s, ip, k, 0)
  {
    if k == 0 {
      s := Init(n, max);
      EmptyInv(0);
      assert CanAll(s, []) && DoAll(s, []) == s;
    } else {
      s := CountUpTo(n, max, ip, k - 1);
      s := CheckOne(n, max, s, ip, k - 1, 0);
      s := CountLast(n, max, s, ip, k - 1, 0);
    }
  }

  lemma BoundIsReached(n: nat, max: int, ip: IP) returns (s: State)
    requires n > 0 && max > 0
    ensures Reachable(n, max, s) && Counted2(s.tracker.log, ip, 0) == max + n
  {
    s := CountUpTo(n, max, ip, max);
    var j := 0;
    while j < n
      invariant j <= n && At(n, max, s, ip, max, j)
    {
      s := CheckOne(n, max, s, ip, max, j);
      j := j + 1;
    }
    while j > 0
      invariant j <= n && At(n, max, s, ip, max + (n - j), j)
    {
      j := j - 1;
      s := CountLast(n, max, s, ip, max + (n - j) - 1, j);
    }
  }

  /** max + n is the exact bound: max + 1 for a forwarder alone. */
  lemma RateBoundIff(n: nat, max: int, bound: int, ip: IP)
    requires n > 0 && max > 0
    ensures (forall s, t :: Reachable(n, max, s) ==> Counted2(s.tracker.log, ip, t) <= bound) <==> bound >= max + n
  {
    var worst := BoundIsReached(n, max, ip);
    assert Reachable(n, max, worst) && Counted2(worst.tracker.log, ip, 0) == max + n;
    forall s, t | Reachable(n, max, s)
      ensures Counted2(s.tracker.log, ip, t) <= max + n
    {
      PacketsInTwoSeconds(n, max, s, ip, t);
    }
  }
}
