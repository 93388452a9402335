/**
 * Connections from admission to release, over every interleaving of the accept
 * loops, the pipe goroutines, closeBoth and forceCloseConns:
 * internal/proxy/proxy.go. An action is what one goroutine does between two
 * points where another may run; the accept loops share one tracker.
 */
module ConnLifecycle {
  import opened Common
  import opened IpTracker

  type ConnId = nat
  datatype Socket = Socket(conn: ConnId, client: bool)

  /** Where handleConn is with a connection. */
  datatype Phase =
    | Admitted     // under the cap at line 296; dialling
    | Dialled      // backend socket open; preamble running
    | Refused      // dial or preamble failed: both sockets closed
    | Active       // active counted
    | Shared       // tracker share taken
    | TrackedOne   // client socket in conns
    | TrackedBoth  // backend socket in conns
    | HalfPiping   // first pipe goroutine started
    | Piping       // second started: handleConn has returned

  /** A pipe goroutine; Exiting has left pipe and is in its deferred closeBoth. */
  datatype Goroutine = NotStarted | Copying | Exiting | Finished

  /** The sync.Once of closeBoth; Running(k) has done k of its six releases. */
  datatype Once = Idle | Running(done: nat) | Done

  datatype Conn = Conn(ip: IP, be: nat, phase: Phase, g1: Goroutine, g2: Goroutine, once: Once)

  datatype Loop = Accepting | Handling(c: ConnId) | Exited

  /** n accept loops, one a backend, each with its own active counter and conns set. */
  datatype State = State(
    max: int,
    conns: map<ConnId, Conn>,
    loops: seq<Loop>,
    live: Live,
    active: seq<int>,
    tracked: seq<set<Socket>>,
    open: set<Socket>)

  datatype Action =
    | Admit(b: nat, c: ConnId, ip: IP)
    | Advance(c: ConnId)
    | Refuse(c: ConnId)
    | PipeEnds(c: ConnId, first: bool)
    | CloseStep(c: ConnId)
    | Finish(c: ConnId, first: bool)
    | ForceClose(b: nat)
    | StopAccepting(b: nat)
    | StartAccepting(b: nat)

  // ---------- the actions ----------

  predicate Can(s: State, a: Action) {
    match a
    case Admit(b, c, ip) =>
      && b < |s.loops| && s.loops[b] == Accepting && c !in s.conns
      && (s.max > 0 ==> CountOf(s.live, ip) < s.max)
    case Advance(c) => c in s.conns && s.conns[c].phase !in {Refused, Piping} && BackendOk(s, c)
    case Refuse(c) => c in s.conns && s.conns[c].phase in {Admitted, Dialled} && BackendOk(s, c)
    case PipeEnds(c, first) => c in s.conns && (if first then s.conns[c].g1 else s.conns[c].g2) == Copying
    case CloseStep(c) =>
      && c in s.conns && BackendOk(s, c)
      && (s.conns[c].once == Idle ==> s.conns[c].g1 == Exiting || s.conns[c].g2 == Exiting)
      && (s.conns[c].once.Running? ==> s.conns[c].once.done < 6)
      && s.conns[c].once != Done
    case Finish(c, first) =>
      && c in s.conns && s.conns[c].once == Done
      && (if first then s.conns[c].g1 else s.conns[c].g2) == Exiting
    case ForceClose(b) => b < |s.tracked|
    case StopAccepting(b) => b < |s.loops| && s.loops[b] == Accepting
    case StartAccepting(b) => b < |s.loops| && s.loops[b] == Exited
  }

  predicate BackendOk(s: State, c: ConnId)
    requires c in s.conns
  {
    s.conns[c].be < |s.loops| == |s.active| == |s.tracked|
  }

  function Do(s: State, a: Action): State
    requires Can(s, a)
  {
    match a
    case Admit(b, c, ip) =>
      s.(conns := s.conns[c := Conn(ip, b, Admitted, NotStarted, NotStarted, Idle)],
         loops := s.loops[b := Handling(c)],
         open := s.open + {Socket(c, true)})
    case Advance(c) => DoAdvance(s, c)
    case Refuse(c) =>
      s.(conns := s.conns[c := s.conns[c].(phase := Refused)],
         loops := s.loops[s.conns[c].be := Accepting],
         open := s.open - {Socket(c, true), Socket(c, false)})
    case PipeEnds(c, first) =>
      s.(conns := s.conns[c := if first then s.conns[c].(g1 := Exiting) else s.conns[c].(g2 := Exiting)])
    case CloseStep(c) => DoCloseStep(s, c)
    case Finish(c, first) =>
      s.(conns := s.conns[c := if first then s.conns[c].(g1 := Finished) else s.conns[c].(g2 := Finished)])
    case ForceClose(b) => s.(open := s.open - s.tracked[b], tracked := s.tracked[b := {}])
    case StopAccepting(b) => s.(loops := s.loops[b := Exited])
    case StartAccepting(b) => s.(loops := s.loops[b := Accepting])
  }

  /** The next statement of handleConn after the dial and after the preamble. */
  function DoAdvance(s: State, c: ConnId): State
    requires Can(s, Advance(c))
  {
    var k := s.conns[c];
    match k.phase
    case Admitted => s.(conns := s.conns[c := k.(phase := Dialled)], open := s.open + {Socket(c, false)})
    case Dialled => s.(conns := s.conns[c := k.(phase := Active)], active := s.active[k.be := s.active[k.be] + 1])
    case Active => s.(conns := s.conns[c := k.(phase := Shared)], live := Incremented(s.live, k.ip))
    case Shared =>
      s.(conns := s.conns[c := k.(phase := TrackedOne)],
         tracked := s.tracked[k.be := s.tracked[k.be] + {Socket(c, true)}])
    case TrackedOne =>
      s.(conns := s.conns[c := k.(phase := TrackedBoth)],
         tracked := s.tracked[k.be := s.tracked[k.be] + {Socket(c, false)}])
    case TrackedBoth => s.(conns := s.conns[c := k.(phase := HalfPiping, g1 := Copying)])
    case HalfPiping =>
      s.(conns := s.conns[c := k.(phase := Piping, g2 := Copying)], loops := s.loops[k.be := Accepting])
  }

  /** The next statement inside closeBoth's once.Do. */
  function DoCloseStep(s: State, c: ConnId): State
    requires Can(s, CloseStep(c))
  {
    var k := s.conns[c];
    if k.once == Idle then s.(conns := s.conns[c := k.(once := Running(0))])
    else
      var t := s.(conns := s.conns[c := k.(once := if k.once.done == 5 then Done else Running(k.once.done + 1))]);
      match k.once.done
      case 0 => t.(open := s.open - {Socket(c, true)})
      case 1 => t.(open := s.open - {Socket(c, false)})
      case 2 => t.(tracked := s.tracked[k.be := s.tracked[k.be] - {Socket(c, true)}])
      case 3 => t.(tracked := s.tracked[k.be := s.tracked[k.be] - {Socket(c, false)}])
      case 4 => t.(live := Decremented(s.live, k.ip))
      case _ => t.(active := s.active[k.be := s.active[k.be] - 1])
  }

  function Init(n: nat, max: int): State {
    State(max, map[], seq(n, i => Accepting), map[], seq(n, i => 0), seq(n, i => {}), {})
  }

  predicate CanAll(s: State, run: seq<Action>)
    decreases |run|
  {
    run == [] || (Can(s, run[0]) && CanAll(Do(s, run[0]), run[1..]))
  }

  function DoAll(s: State, run: seq<Action>): State
    requires CanAll(s, run)
    decreases |run|
  {
    if run == [] then s else DoAll(Do(s, run[0]), run[1..])
  }

  // ---------- what a connection holds ----------

  /** active has been incremented for k and not yet decremented. */
  predicate HasActive(k: Conn) {
    k.phase !in {Admitted, Dialled, Refused} && k.once != Done
  }

  /** tracker.inc has been called for k and tracker.dec has not. */
  predicate HasShare(k: Conn) {
    k.phase !in {Admitted, Dialled, Refused, Active} && k.once != Done && !(k.once.Running? && k.once.done >= 5)
  }

  /** Past the cap check but not yet counted. */
  predicate InFlight(k: Conn) {
    k.phase in {Admitted, Dialled, Active}
  }

  function ActiveAt(b: nat): Conn -> bool {
    (k: Conn) => k.be == b && HasActive(k)
  }

  function SharesOf(ip: IP): Conn -> bool {
    (k: Conn) => k.ip == ip && HasShare(k)
  }

  function InFlightOf(ip: IP): Conn -> bool {
    (k: Conn) => k.ip == ip && InFlight(k)
  }

  function Matching(conns: map<ConnId, Conn>, p: Conn -> bool): set<ConnId> {
    set c | c in conns && p(conns[c])
  }

  function Number(conns: map<ConnId, Conn>, p: Conn -> bool): nat {
    |Matching(conns, p)|
  }

  function One(b: bool): nat {
    if b then 1 else 0
  }

  lemma NumberUpdate(conns: map<ConnId, Conn>, c: ConnId, k: Conn, p: Conn -> bool)
    ensures Number(conns[c := k], p) == Number(conns, p) - One(c in conns && p(conns[c])) + One(p(k))
  {
    var s, t := Matching(conns, p), Matching(conns[c := k], p);
    assert forall d :: d != c ==> (d in s <==> d in t);
    assert s - {c} == t - {c};
    assert |s - {c}| == |s| - One(c in s);
    assert |t - {c}| == |t| - One(c in t);
  }

  // ---------- the invariant ----------

  predicate RecordOk(s: State, c: ConnId, k: Conn) {
    && k.be < |s.loops|
    && (k.phase !in {Refused, Piping} ==> s.loops[k.be] == Handling(c))
    && (k.g1 == NotStarted <==> k.phase !in {HalfPiping, Piping})
    && (k.g2 == NotStarted <==> k.phase != Piping)
    && (k.once != Idle ==> k.g1 in {Exiting, Finished} || k.g2 in {Exiting, Finished})
    && (k.g1 == Finished || k.g2 == Finished ==> k.once == Done)
    && (k.once.Running? ==> k.once.done < 6)
  }

  /** How many of the releases of closeBoth are behind k. */
  function Released(k: Conn): nat {
    match k.once
    case Idle => 0
    case Running(d) => d
    case Done => 6
  }

  predicate SocketOk(s: State, x: Socket) {
    && x.conn in s.conns
    && s.conns[x.conn].phase != Refused
    && Released(s.conns[x.conn]) <= (if x.client then 0 else 1)
  }

  predicate TrackedOk(s: State, b: nat, x: Socket) {
    && x.conn in s.conns
    && s.conns[x.conn].be == b
    && s.conns[x.conn].phase !in {Admitted, Dialled, Refused, Active, Shared}
    && Released(s.conns[x.conn]) <= (if x.client then 2 else 3)
  }

  ghost predicate Shape(s: State) {
    && |s.loops| == |s.active| == |s.tracked|
    && (forall c :: c in s.conns ==> RecordOk(s, c, s.conns[c]))
    && (forall b :: 0 <= b < |s.loops| && s.loops[b].Handling? ==>
          && s.loops[b].c in s.conns && s.conns[s.loops[b].c].be == b
          && s.conns[s.loops[b].c].phase !in {Refused, Piping})
    && (forall x :: x in s.open ==> SocketOk(s, x))
    && (forall b, x :: 0 <= b < |s.tracked| && x in s.tracked[b] ==> TrackedOk(s, b, x))
  }

  /** active and the tracker are exact, and the tracker holds no entry that is not positive. */
  ghost predicate Counted(s: State) {
    && (forall b :: 0 <= b < |s.active| ==> s.active[b] == Number(s.conns, ActiveAt(b)))
    && (forall ip :: CountOf(s.live, ip) == Number(s.conns, SharesOf(ip)))
    && AllPositive(s.live)
  }

  /** Counted and uncounted connections of one address together. */
  function Held(s: State, ip: IP): nat {
    Number(s.conns, SharesOf(ip)) + Number(s.conns, InFlightOf(ip))
  }

  ghost predicate Capped(s: State) {
    s.max > 0 ==> forall ip :: Held(s, ip) <= s.max + |s.loops| - 1
  }

  ghost predicate Inv(s: State) {
    Shape(s) && Counted(s) && (|s.loops| > 0 ==> Capped(s))
  }

  // ---------- every action keeps it ----------

  /** An action that touches one connection moves each counter by what that connection gained or lost. */
  predicate OneRecord(s: State, t: State, c: ConnId, k: Conn) {
    && t.max == s.max
    && t.conns == s.conns[c := k]
    && |t.loops| == |s.loops| && |t.active| == |s.active| && |t.tracked| == |s.tracked|
  }

  lemma ActiveStaysExact(s: State, t: State, c: ConnId, k: Conn, b: nat)
    requires OneRecord(s, t, c, k) && b < |s.active| && s.active[b] == Number(s.conns, ActiveAt(b))
    requires t.active[b] == s.active[b] - One(c in s.conns && ActiveAt(b)(s.conns[c])) + One(ActiveAt(b)(k))
    ensures t.active[b] == Number(t.conns, ActiveAt(b))
  {
    NumberUpdate(s.conns, c, k, ActiveAt(b));
  }

  ghost predicate LiveMoves(s: State, t: State, j: Conn, k: Conn) {
    forall ip ::
      CountOf(t.live, ip) == CountOf(s.live, ip) - One(SharesOf(ip)(j)) + One(SharesOf(ip)(k))
  }

  lemma LiveStaysExact(s: State, t: State, c: ConnId, k: Conn, ip: IP)
    requires OneRecord(s, t, c, k) && CountOf(s.live, ip) == Number(s.conns, SharesOf(ip))
    requires CountOf(t.live, ip) ==
      CountOf(s.live, ip) - One(c in s.conns && SharesOf(ip)(s.conns[c])) + One(SharesOf(ip)(k))
    ensures CountOf(t.live, ip) == Number(t.conns, SharesOf(ip))
  {
    NumberUpdate(s.conns, c, k, SharesOf(ip));
  }

  predicate Holds(k: Conn, ip: IP) {
    k.ip == ip && (HasShare(k) || InFlight(k))
  }

  lemma HeldMoves(s: State, t: State, c: ConnId, k: Conn, ip: IP)
    requires OneRecord(s, t, c, k)
    requires c in s.conns ==> !(HasShare(s.conns[c]) && InFlight(s.conns[c]))
    requires !(HasShare(k) && InFlight(k))
    ensures Held(t, ip) == Held(s, ip) - One(c in s.conns && Holds(s.conns[c], ip)) + One(Holds(k, ip))
  {
    NumberUpdate(s.conns, c, k, SharesOf(ip));
    NumberUpdate(s.conns, c, k, InFlightOf(ip));
  }

  predicate Busy(k: Conn) {
    k.phase !in {Refused, Piping}
  }

  /** The accept loop of k's backend, before and after an action on c. */
  predicate LoopFollows(s: State, t: State, c: ConnId, j: Conn, k: Conn) {
    && k.be == j.be < |s.loops|
    && t.loops == (if Busy(j) && !Busy(k) then s.loops[k.be := Accepting] else s.loops)
    && (Busy(k) ==> Busy(j))
  }

  /** Sockets of other connections stay where they are, or go; those of c are as they should be. */
  ghost predicate SocketsFollow(s: State, t: State, c: ConnId) {
    && (forall x :: x in t.open ==> if x.conn == c then SocketOk(t, x) else x in s.open)
    && (forall b, x :: 0 <= b < |t.tracked| == |s.tracked| && x in t.tracked[b] ==>
          if x.conn == c then TrackedOk(t, b, x) else x in s.tracked[b])
  }

  lemma ShapeUpdate(s: State, t: State, c: ConnId, k: Conn)
    requires Shape(s) && c in s.conns && OneRecord(s, t, c, k)
    requires RecordOk(t, c, k) && LoopFollows(s, t, c, s.conns[c], k) && SocketsFollow(s, t, c)
    ensures Shape(t)
  {
    assert RecordOk(s, c, s.conns[c]);
    forall d | d in t.conns
      ensures RecordOk(t, d, t.conns[d])
    {
      if d != c {
        assert RecordOk(s, d, s.conns[d]);
      }
    }
    forall x | x in t.open
      ensures SocketOk(t, x)
    {
      assert x.conn != c ==> SocketOk(s, x);
    }
    forall b, x | 0 <= b < |t.tracked| && x in t.tracked[b]
      ensures TrackedOk(t, b, x)
    {
      assert x.conn != c ==> TrackedOk(s, b, x);
    }
  }

  /** The connections the accept loops are busy with. */
  function Handled(loops: seq<Loop>): set<ConnId> {
    if loops == [] then {}
    else (if loops[0].Handling? then {loops[0].c} else {}) + Handled(loops[1..])
  }

  lemma {:induction false} HandledBound(loops: seq<Loop>, b: nat)
    requires b < |loops| && !loops[b].Handling?
    ensures |Handled(loops)| <= |loops| - 1
  {
    if b > 0 {
      HandledBound(loops[1..], b - 1);
    } else {
      HandledAtMost(loops[1..]);
    }
  }

  lemma {:induction false} HandledAtMost(loops: seq<Loop>)
    ensures |Handled(loops)| <= |loops|
  {
    if loops != [] {
      HandledAtMost(loops[1..]);
    }
  }

  lemma {:induction false} HandledHas(loops: seq<Loop>, b: nat)
    requires b < |loops| && loops[b].Handling?
    ensures loops[b].c in Handled(loops)
  {
    if b > 0 {
      HandledHas(loops[1..], b - 1);
    }
  }

  /** While one loop is free the others have at most n - 1 connections in flight. */
  lemma InFlightBound(s: State, ip: IP, b: nat)
    requires Shape(s) && b < |s.loops| && s.loops[b] == Accepting
    ensures Number(s.conns, InFlightOf(ip)) <= |s.loops| - 1
  {
    HandledBound(s.loops, b);
    var m := Matching(s.conns, InFlightOf(ip));
    forall c | c in m
      ensures c in Handled(s.loops)
    {
      assert RecordOk(s, c, s.conns[c]);
      HandledHas(s.loops, s.conns[c].be);
    }
    SubsetSize(m, Handled(s.loops));
  }

  lemma AdmitShape(s: State, a: Action)
    requires a.Admit? && Shape(s) && Can(s, a)
    ensures Shape(Do(s, a))
  {
  }

  lemma AdmitKeeps(s: State, a: Action)
    requires a.Admit? && Inv(s) && Can(s, a)
    ensures Inv(Do(s, a))
  {
    AdmitShape(s, a);
    hide Number, Shape;
    var t := Do(s, a);
    var k := t.conns[a.c];
    forall b | 0 <= b < |t.active|
      ensures t.active[b] == Number(t.conns, ActiveAt(b))
    {
      ActiveStaysExact(s, t, a.c, k, b);
    }
    forall ip
      ensures CountOf(t.live, ip) == Number(t.conns, SharesOf(ip))
      ensures s.max > 0 ==> Held(t, ip) <= t.max + |t.loops| - 1
    {
      LiveStaysExact(s, t, a.c, k, ip);
      HeldMoves(s, t, a.c, k, ip);
      InFlightBound(s, ip, a.b);
    }
  }

  /** What is left to show for an action on one connection that is not an admission. */
  lemma ConnActionKeeps(s: State, t: State, c: ConnId)
    requires Inv(s) && Shape(t) && c in s.conns && c in t.conns && OneRecord(s, t, c, t.conns[c])
    requires s.conns[c].ip == t.conns[c].ip && s.conns[c].be == t.conns[c].be < |s.active|
    requires !(HasShare(s.conns[c]) && InFlight(s.conns[c])) && !(HasShare(t.conns[c]) && InFlight(t.conns[c]))
    requires Holds(t.conns[c], t.conns[c].ip) ==> Holds(s.conns[c], s.conns[c].ip)
    requires t.active
          == s.active[s.conns[c].be := s.active[s.conns[c].be] - One(HasActive(s.conns[c])) + One(HasActive(t.conns[c]))]
    requires LiveMoves(s, t, s.conns[c], t.conns[c])
    requires AllPositive(t.live)
    ensures Inv(t)
  {
    var k := t.conns[c];
    forall b | 0 <= b < |t.active|
      ensures t.active[b] == Number(t.conns, ActiveAt(b))
    {
      ActiveStaysExact(s, t, c, k, b);
    }
    forall ip
      ensures CountOf(t.live, ip) == Number(t.conns, SharesOf(ip))
      ensures s.max > 0 ==> Held(t, ip) <= t.max + |t.loops| - 1
    {
      LiveStaysExact(s, t, c, k, ip);
      HeldMoves(s, t, c, k, ip);
    }
  }

  lemma AdvanceShape(s: State, a: Action)
    requires a.Advance? && Shape(s) && Can(s, a)
    ensures a.c in Do(s, a).conns && OneRecord(s, Do(s, a), a.c, Do(s, a).conns[a.c]) && Shape(Do(s, a))
  {
    hide Number;
    var t := Do(s, a);
    assert RecordOk(s, a.c, s.conns[a.c]);
    ShapeUpdate(s, t, a.c, t.conns[a.c]);
  }

  lemma AdvanceKeeps(s: State, a: Action)
    requires a.Advance? && Inv(s) && Can(s, a)
    ensures Inv(Do(s, a))
  {
    assert RecordOk(s, a.c, s.conns[a.c]);
    hide Number, Shape, Held;
    var t := Do(s, a);
    AdvanceShape(s, a);
    ConnActionKeeps(s, t, a.c);
  }

  lemma RefuseKeeps(s: State, a: Action)
    requires a.Refuse? && Inv(s) && Can(s, a)
    ensures Inv(Do(s, a))
  {
    hide Number;
    var t := Do(s, a);
    assert RecordOk(s, a.c, s.conns[a.c]);
    ShapeUpdate(s, t, a.c, t.conns[a.c]);
    ConnActionKeeps(s, t, a.c);
  }

  /** The decrement of closeBoth finds the entry it is to decrement. */
  lemma HoldersAreCounted(s: State, c: ConnId)
    requires Counted(s) && c in s.conns && HasShare(s.conns[c])
    ensures CountOf(s.live, s.conns[c].ip) > 0
  {
    assert c in Matching(s.conns, SharesOf(s.conns[c].ip));
  }

  lemma CloseStepShape(s: State, a: Action)
    requires a.CloseStep? && Shape(s) && Can(s, a)
    ensures a.c in Do(s, a).conns && OneRecord(s, Do(s, a), a.c, Do(s, a).conns[a.c]) && Shape(Do(s, a))
  {
    assert RecordOk(s, a.c, s.conns[a.c]);
    hide Number;
    var t := Do(s, a);
    ShapeUpdate(s, t, a.c, t.conns[a.c]);
  }

  lemma CloseStepCounts(s: State, a: Action)
    requires a.CloseStep? && Counted(s) && Can(s, a)
    requires HasShare(s.conns[a.c]) ==> CountOf(s.live, s.conns[a.c].ip) > 0
    requires s.conns[a.c].once != Idle ==> s.conns[a.c].phase in {HalfPiping, Piping}
    ensures LiveMoves(s, Do(s, a), s.conns[a.c], Do(s, a).conns[a.c]) && AllPositive(Do(s, a).live)
  {
    hide Number;
  }

  /** A step of closeBoth only gives back, and active goes with it. */
  lemma CloseStepRecord(s: State, a: Action)
    requires a.CloseStep? && Can(s, a)
    requires s.conns[a.c].once != Idle ==> s.conns[a.c].phase in {HalfPiping, Piping}
    ensures a.c in Do(s, a).conns
    ensures var j, k := s.conns[a.c], Do(s, a).conns[a.c];
            && j.ip == k.ip && j.be == k.be
            && !(HasShare(j) && InFlight(j)) && !(HasShare(k) && InFlight(k))
            && (Holds(k, k.ip) ==> Holds(j, j.ip))
            && Do(s, a).active == s.active[j.be := s.active[j.be] - One(HasActive(j)) + One(HasActive(k))]
  {
    hide Decremented;
  }

  lemma CloseStepKeeps(s: State, a: Action)
    requires a.CloseStep? && Inv(s) && Can(s, a)
    ensures Inv(Do(s, a))
  {
    assert RecordOk(s, a.c, s.conns[a.c]);
    if HasShare(s.conns[a.c]) {
      HoldersAreCounted(s, a.c);
    }
    CloseStepShape(s, a);
    CloseStepCounts(s, a);
    CloseStepRecord(s, a);
    assert s.conns[a.c].be < |s.active|;
    hide Number, Shape, Held, LiveMoves, Counted, AllPositive, Do, Holds, HasShare, HasActive, InFlight, OneRecord;
    ConnActionKeeps(s, Do(s, a), a.c);
  }

  lemma ExitKeeps(s: State, a: Action)
    requires (a.PipeEnds? || a.Finish?) && Inv(s) && Can(s, a)
    ensures Inv(Do(s, a))
  {
    hide Number;
    var t := Do(s, a);
    assert RecordOk(s, a.c, s.conns[a.c]);
    ShapeUpdate(s, t, a.c, t.conns[a.c]);
    ConnActionKeeps(s, t, a.c);
  }

  lemma BackendActionKeeps(s: State, a: Action)
    requires (a.ForceClose? || a.StopAccepting? || a.StartAccepting?) && Inv(s) && Can(s, a)
    ensures Inv(Do(s, a))
  {
    hide Number;
    var t := Do(s, a);
    assert forall ip :: Held(t, ip) == Held(s, ip);
    assert Shape(t);
  }

  lemma ActionKeeps(s: State, a: Action)
    requires Inv(s) && Can(s, a)
    ensures Inv(Do(s, a))
  {
    hide Inv, Do;
    match a
    case Admit(_, _, _) => AdmitKeeps(s, a);
    case Advance(_) => AdvanceKeeps(s, a);
    case Refuse(_) => RefuseKeeps(s, a);
    case CloseStep(_) => CloseStepKeeps(s, a);
    case PipeEnds(_, _) => ExitKeeps(s, a);
    case Finish(_, _) => ExitKeeps(s, a);
    case _ => BackendActionKeeps(s, a);
  }

  lemma InitInv(n: nat, max: int)
    ensures Inv(Init(n, max))
  {
    var s := Init(n, max);
    assert forall p :: Matching(s.conns, p) == {};
  }

  lemma {:induction false} RunKeeps(s: State, run: seq<Action>)
    requires Inv(s) && CanAll(s, run)
    ensures Inv(DoAll(s, run))
    decreases |run|
  {
    hide Inv, Do, Can;
    if run != [] {
      ActionKeeps(s, run[0]);
      RunKeeps(Do(s, run[0]), run[1..]);
    }
  }

  // ---------- what follows for every run ----------

  ghost predicate Reachable(n: nat, max: int, s: State) {
    exists run :: CanAll(Init(n, max), run) && DoAll(Init(n, max), run) == s
  }

  lemma ReachableInv(n: nat, max: int, s: State)
    requires Reachable(n, max, s)
    ensures Inv(s) && s.max == max && |s.loops| == n
  {
    var run :| CanAll(Init(n, max), run) && DoAll(Init(n, max), run) == s;
    InitInv(n, max);
    RunKeeps(Init(n, max), run);
    SettingsStay(Init(n, max), run);
  }

  lemma {:induction false} SettingsStay(s: State, run: seq<Action>)
    requires CanAll(s, run)
    ensures DoAll(s, run).max == s.max && |DoAll(s, run).loops| == |s.loops|
    decreases |run|
  {
    if run != [] {
      SettingsStay(Do(s, run[0]), run[1..]);
    }
  }

  /**
   * The per-IP cap under concurrency: check and increment are separate, so each
   * of the n accept loops can be one over, less one. The bound covers the
   * connections still dialling or in their preamble.
   */
  lemma CapPerIP(n: nat, max: int, s: State, ip: IP)
    requires n > 0 && max > 0 && Reachable(n, max, s)
    ensures CountOf(s.live, ip) + Number(s.conns, InFlightOf(ip)) <= max + n - 1
  {
    ReachableInv(n, max, s);
    assert Held(s, ip) <= max + n - 1;
  }

  /** wg.Wait in shutdown returns: the accept loop and every pipe goroutine of backend b are gone. */
  predicate WaitReturns(s: State, b: nat) {
    && b < |s.loops| && s.loops[b] == Exited
    && forall c :: c in s.conns && s.conns[c].be == b ==>
         s.conns[c].g1 in {NotStarted, Finished} && s.conns[c].g2 in {NotStarted, Finished}
  }

  /**
   * When shutdown returns, its backend has nothing left: no active connection,
   * an empty conns set, no share in the tracker, no open socket; whatever was
   * force-closed, when, and how often, and although a connection may register
   * after the force-close.
   */
  lemma ShutdownLeavesNothing(n: nat, max: int, s: State, b: nat)
    requires Reachable(n, max, s) && WaitReturns(s, b)
    ensures b < |s.active| == |s.tracked| && s.active[b] == 0 && s.tracked[b] == {}
    ensures forall c :: c in s.conns && s.conns[c].be == b ==>
              !HasShare(s.conns[c]) && !InFlight(s.conns[c])
              && Socket(c, true) !in s.open && Socket(c, false) !in s.open
  {
    ReachableInv(n, max, s);
    forall c | c in s.conns && s.conns[c].be == b
      ensures s.conns[c].phase == Refused || s.conns[c].once == Done
    {
      assert RecordOk(s, c, s.conns[c]);
    }
    assert Matching(s.conns, ActiveAt(b)) == {};
    assert forall x :: x in s.tracked[b] ==> TrackedOk(s, b, x);
    assert s.tracked[b] == {};
    assert forall x :: x in s.open ==> SocketOk(s, x);
  }

  /** If every backend has shut down, the shared tracker is empty. */
  lemma TrackerEmptiesAtShutdown(n: nat, max: int, s: State)
    requires Reachable(n, max, s) && forall b :: 0 <= b < n ==> WaitReturns(s, b)
    ensures s.live == map[]
  {
    ReachableInv(n, max, s);
    forall ip
      ensures ip !in s.live
    {
      forall c | c in s.conns
        ensures !HasShare(s.conns[c])
      {
        assert RecordOk(s, c, s.conns[c]);
        ShutdownLeavesNothing(n, max, s, s.conns[c].be);
      }
      assert Matching(s.conns, SharesOf(ip)) == {};
      assert CountOf(s.live, ip) == 0;
    }
  }

  // ---------- which sockets are open, and which are tracked ----------

  /** The action opens socket x: its connection is accepted, or its backend dialled. */
  predicate Opens(s: State, a: Action, x: Socket)
    requires Can(s, a)
  {
    match a
    case Admit(_, c, _) => x == Socket(c, true)
    case Advance(c) => x == Socket(c, false) && s.conns[c].phase == Admitted
    case _ => false
  }

  /** The action closes x: a refusal, x's own step of closeBoth, or a force-close while x is tracked. */
  predicate Closes(s: State, a: Action, x: Socket)
    requires Can(s, a)
  {
    match a
    case Refuse(c) => x.conn == c
    case CloseStep(c) => x.conn == c && s.conns[c].once == Running(if x.client then 0 else 1)
    case ForceClose(b) => x in s.tracked[b]
    case _ => false
  }

  lemma OpenStep(s: State, a: Action, x: Socket)
    requires Can(s, a)
    ensures x in Do(s, a).open <==> (x in s.open && !Closes(s, a, x)) || Opens(s, a, x)
  {
    hide CountOf, Incremented, Decremented;
  }

  predicate NeverCloses(s: State, run: seq<Action>, x: Socket)
    requires CanAll(s, run)
    decreases |run|
  {
    run == [] || (!Closes(s, run[0], x) && NeverCloses(Do(s, run[0]), run[1..], x))
  }

  /** Somewhere in the run x is opened, and from there it is not closed. */
  predicate OpenedAndKept(s: State, run: seq<Action>, x: Socket)
    requires CanAll(s, run)
    decreases |run|
  {
    run != [] &&
    (|| (Opens(s, run[0], x) && NeverCloses(Do(s, run[0]), run[1..], x))
     || OpenedAndKept(Do(s, run[0]), run[1..], x))
  }

  lemma {:induction false} OpenAfterRun(s: State, run: seq<Action>, x: Socket)
    requires CanAll(s, run)
    ensures x in DoAll(s, run).open <==> (x in s.open && NeverCloses(s, run, x)) || OpenedAndKept(s, run, x)
    decreases |run|
  {
    if run != [] {
      OpenStep(s, run[0], x);
      hide Do, Can, Opens, Closes;
      OpenAfterRun(Do(s, run[0]), run[1..], x);
    }
  }

  /** The action puts x into, or takes it out of, the conns of backend b. */
  predicate Tracks(s: State, a: Action, b: nat, x: Socket)
    requires Can(s, a)
  {
    a == Advance(x.conn) && s.conns[x.conn].be == b && s.conns[x.conn].phase == if x.client then Shared else TrackedOne
  }

  predicate Untracks(s: State, a: Action, b: nat, x: Socket)
    requires Can(s, a)
  {
    || a == ForceClose(b)
    || (a == CloseStep(x.conn) && s.conns[x.conn].be == b && s.conns[x.conn].once == Running(if x.client then 2 else 3))
  }

  lemma TrackStep(s: State, a: Action, b: nat, x: Socket)
    requires Can(s, a) && b < |s.tracked|
    ensures b < |Do(s, a).tracked|
    ensures x in Do(s, a).tracked[b] <==> (x in s.tracked[b] && !Untracks(s, a, b, x)) || Tracks(s, a, b, x)
  {
    hide CountOf, Incremented, Decremented;
  }

  predicate NeverUntracks(s: State, run: seq<Action>, b: nat, x: Socket)
    requires CanAll(s, run)
    decreases |run|
  {
    run == [] || (!Untracks(s, run[0], b, x) && NeverUntracks(Do(s, run[0]), run[1..], b, x))
  }

  predicate TrackedAndKept(s: State, run: seq<Action>, b: nat, x: Socket)
    requires CanAll(s, run)
    decreases |run|
  {
    run != [] &&
    (|| (Tracks(s, run[0], b, x) && NeverUntracks(Do(s, run[0]), run[1..], b, x))
     || TrackedAndKept(Do(s, run[0]), run[1..], b, x))
  }

  lemma {:induction false} TrackedAfterRun(s: State, run: seq<Action>, b: nat, x: Socket)
    requires CanAll(s, run) && b < |s.tracked|
    ensures b < |DoAll(s, run).tracked|
    ensures x in DoAll(s, run).tracked[b]
       <==> (x in s.tracked[b] && NeverUntracks(s, run, b, x)) || TrackedAndKept(s, run, b, x)
    decreases |run|
  {
    if run != [] {
      TrackStep(s, run[0], b, x);
      hide Do, Can, Tracks, Untracks;
      TrackedAfterRun(Do(s, run[0]), run[1..], b, x);
    }
  }

  /**
   * In every run, a socket is open if and only if it was opened, the client's
   * at admission and the backend's by the dial, and not closed since; and it is
   * in the conns of a backend if and only if it was registered there and
   * neither released nor force-closed since.
   */
  lemma SocketsIff(n: nat, max: int, run: seq<Action>, b: nat, x: Socket)
    requires CanAll(Init(n, max), run) && b < n
    ensures x in DoAll(Init(n, max), run).open <==> OpenedAndKept(Init(n, max), run, x)
    ensures b < |DoAll(Init(n, max), run).tracked|
    ensures x in DoAll(Init(n, max), run).tracked[b] <==> TrackedAndKept(Init(n, max), run, b, x)
  {
    OpenAfterRun(Init(n, max), run, x);
    TrackedAfterRun(Init(n, max), run, b, x);
  }

  /** The sockets c should have open, by where it is: from the accept, or the dial, to its own release. */
  predicate ShouldBeOpen(s: State, x: Socket) {
    SocketOk(s, x) && (x.client || s.conns[x.conn].phase != Admitted)
  }

  ghost predicate AllOpen(s: State) {
    forall x :: ShouldBeOpen(s, x) ==> x in s.open
  }

  lemma OpenStaysExact(s: State, a: Action)
    requires Shape(s) && AllOpen(s) && Can(s, a) && !a.ForceClose?
    ensures AllOpen(Do(s, a))
  {
    var t := Do(s, a);
    forall x | ShouldBeOpen(t, x)
      ensures x in t.open
    {
      ShouldStep(s, a, x);
      OpenStep(s, a, x);
      hide Do, Can, Opens, Closes, ShouldBeOpen, Shape;
    }
  }

  lemma ShouldStep(s: State, a: Action, x: Socket)
    requires Shape(s) && Can(s, a) && !a.ForceClose? && ShouldBeOpen(Do(s, a), x)
    ensures Opens(s, a, x) || (ShouldBeOpen(s, x) && !Closes(s, a, x))
  {
    if a.CloseStep? {
      ShouldCloseStep(s, a, x);
    } else if a.Advance? {
      ShouldAdvance(s, a, x);
    } else {
      hide DoAdvance, DoCloseStep;
    }
  }

  lemma ShouldCloseStep(s: State, a: Action, x: Socket)
    requires Shape(s) && Can(s, a) && a.CloseStep? && ShouldBeOpen(Do(s, a), x)
    ensures ShouldBeOpen(s, x) && !Closes(s, a, x)
  {
    assert x.conn in s.conns ==> RecordOk(s, x.conn, s.conns[x.conn]);
    hide Decremented, Shape;
  }

  lemma ShouldAdvance(s: State, a: Action, x: Socket)
    requires Can(s, a) && a.Advance? && ShouldBeOpen(Do(s, a), x)
    ensures Opens(s, a, x) || ShouldBeOpen(s, x)
  {
    hide Incremented;
  }

  /**
   * As long as nothing is force-closed, exactly those sockets are open: in
   * particular both of every connection whose goroutines run and that is not
   * being released.
   */
  lemma {:induction false} ServedSocketsAreOpen(s: State, run: seq<Action>)
    requires Inv(s) && AllOpen(s) && CanAll(s, run) && forall a :: a in run ==> !a.ForceClose?
    ensures AllOpen(DoAll(s, run))
    decreases |run|
  {
    if run != [] {
      assert run[0] in run && forall a :: a in run[1..] ==> a in run;
      ActionKeeps(s, run[0]);
      OpenStaysExact(s, run[0]);
      hide Do, Can, Inv, AllOpen;
      ServedSocketsAreOpen(Do(s, run[0]), run[1..]);
    }
  }

  // ---------- released exactly once ----------

  /** How many steps of closeBoth's once.Do have been taken for c: its start and its six releases. */
  function Progress(s: State, c: ConnId): nat {
    if c !in s.conns then 0
    else match s.conns[c].once
      case Idle => 0
      case Running(d) => d + 1
      case Done => 7
  }

  function StepsFor(run: seq<Action>, c: ConnId): nat {
    if run == [] then 0 else One(run[0] == CloseStep(c)) + StepsFor(run[1..], c)
  }

  lemma ProgressStep(s: State, a: Action, c: ConnId)
    requires Can(s, a)
    ensures Progress(Do(s, a), c) == Progress(s, c) + One(a == CloseStep(c))
  {
  }

  lemma {:induction false} ProgressCounts(s: State, run: seq<Action>, c: ConnId)
    requires Inv(s) && CanAll(s, run)
    ensures Progress(DoAll(s, run), c) == Progress(s, c) + StepsFor(run, c)
    decreases |run|
  {
    if run != [] {
      hide Inv, Do, Can, Progress;
      ActionKeeps(s, run[0]);
      ProgressStep(s, run[0], c);
      ProgressCounts(Do(s, run[0]), run[1..], c);
    }
  }

  /**
   * In every run each of closeBoth's releases happens at most once for a
   * connection, although two goroutines call it, and all of them have happened
   * by the time either goroutine has finished.
   */
  lemma ReleasedExactlyOnce(n: nat, max: int, run: seq<Action>, c: ConnId)
    requires CanAll(Init(n, max), run)
    ensures StepsFor(run, c) <= 7
    ensures var s := DoAll(Init(n, max), run);
            c in s.conns && (s.conns[c].g1 == Finished || s.conns[c].g2 == Finished) ==> StepsFor(run, c) == 7
  {
    var s := DoAll(Init(n, max), run);
    InitInv(n, max);
    RunKeeps(Init(n, max), run);
    ProgressCounts(Init(n, max), run, c);
    if c in s.conns {
      assert RecordOk(s, c, s.conns[c]);
    }
  }

  // ---------- the bound is reached ----------

  lemma {:induction false} RunAppend(s: State, run: seq<Action>, a: Action)
    requires CanAll(s, run) && Can(DoAll(s, run), a)
    ensures CanAll(s, run + [a]) && DoAll(s, run + [a]) == Do(DoAll(s, run), a)
    decreases |run|
  {
    if run == [] {
      assert run + [a] == [a];
    } else {
      assert (run + [a])[1..] == run[1..] + [a];
      RunAppend(Do(s, run[0]), run[1..], a);
    }
  }

  lemma ReachStep(n: nat, max: int, s: State, a: Action)
    requires Reachable(n, max, s) && Can(s, a)
    ensures Reachable(n, max, Do(s, a))
  {
    var run :| CanAll(Init(n, max), run) && DoAll(Init(n, max), run) == s;
    RunAppend(Init(n, max), run, a);
  }

  /** A state that a lemma below has steered to. */
  ghost predicate At(n: nat, max: int, s: State) {
    Reachable(n, max, s) && s.max == max && |s.loops| == |s.active| == |s.tracked| == n
  }

  /** Connection c, admitted or dialled, takes its share of the tracker. */
  lemma TakeShare(n: nat, max: int, s: State, c: ConnId) returns (t: State)
    requires At(n, max, s) && c in s.conns && s.conns[c].phase == Admitted && s.conns[c].be < n
    ensures At(n, max, t) && t.loops == s.loops
    ensures t.conns == s.conns[c := s.conns[c].(phase := Shared)]
    ensures t.live == Incremented(s.live, s.conns[c].ip)
  {
    var a := Advance(c);
    ReachStep(n, max, s, a);
    var s1 := Do(s, a);
    ReachStep(n, max, s1, a);
    var s2 := Do(s1, a);
    ReachStep(n, max, s2, a);
    t := Do(s2, a);
  }

  /** A counted connection is registered and its goroutines are started. */
  lemma Settle(n: nat, max: int, s: State, c: ConnId) returns (t: State)
    requires At(n, max, s) && c in s.conns && s.conns[c].phase == Shared && s.conns[c].be < n
    ensures At(n, max, t) && t.live == s.live
    ensures t.conns == s.conns[c := s.conns[c].(phase := Piping, g1 := Copying, g2 := Copying)]
    ensures t.loops == s.loops[s.conns[c].be := Accepting]
  {
    var a := Advance(c);
    ReachStep(n, max, s, a);
    var s1 := Do(s, a);
    ReachStep(n, max, s1, a);
    var s2 := Do(s1, a);
    ReachStep(n, max, s2, a);
    var s3 := Do(s2, a);
    ReachStep(n, max, s3, a);
    t := Do(s3, a);
  }

  /** A connection is opened to the end on loop 0, which is then free again. */
  lemma OpenOne(n: nat, max: int, s: State, c: ConnId, ip: IP) returns (t: State)
    requires n > 0 && At(n, max, s) && s.loops[0] == Accepting && c !in s.conns
    requires max > 0 ==> CountOf(s.live, ip) < max
    ensures At(n, max, t) && t.loops == s.loops
    ensures t.conns == s.conns[c := Conn(ip, 0, Piping, Copying, Copying, Idle)] && t.live == Incremented(s.live, ip)
  {
    ReachStep(n, max, s, Admit(0, c, ip));
    t := TakeShare(n, max, Do(s, Admit(0, c, ip)), c);
    t := Settle(n, max, t, c);
    assert t.loops == s.loops;
  }

  lemma {:induction false} OpenMany(n: nat, max: int, ip: IP, k: nat) returns (s: State)
    requires n > 0 && (max > 0 ==> k <= max)
    ensures At(n, max, s) && s.loops == seq(n, i => Accepting)
    ensures CountOf(s.live, ip) == k && forall c :: c >= k ==> c !in s.conns
  {
    if k == 0 {
      s := Init(n, max);
      assert CanAll(s, []) && DoAll(s, []) == s;
    } else {
      s := OpenMany(n, max, ip, k - 1);
      s := OpenOne(n, max, s, k - 1, ip);
    }
  }

  /** Loop i is handling connection base + i, which is under the cap and not counted. */
  predicate Pending(s: State, base: nat, i: nat, ip: IP)
    requires i < |s.loops|
  {
    base + i in s.conns && s.conns[base + i] == Conn(ip, i, Admitted, NotStarted, NotStarted, Idle)
  }

  lemma {:induction false} AdmitMany(n: nat, max: int, s: State, base: nat, ip: IP, j: nat) returns (t: State)
    requires At(n, max, s) && s.loops == seq(n, i => Accepting) && j <= n
    requires CountOf(s.live, ip) < max && forall c :: c >= base ==> c !in s.conns
    ensures At(n, max, t) && t.live == s.live
    ensures forall i :: 0 <= i < j ==> Pending(t, base, i, ip)
    ensures forall i :: j <= i < n ==> t.loops[i] == Accepting
    ensures forall c :: c >= base + j ==> c !in t.conns
  {
    if j == 0 {
      t := s;
    } else {
      var u := AdmitMany(n, max, s, base, ip, j - 1);
      var a := Admit(j - 1, base + j - 1, ip);
      ReachStep(n, max, u, a);
      t := Do(u, a);
      forall i | 0 <= i < j
        ensures Pending(t, base, i, ip)
      {
        assert i < j - 1 ==> Pending(u, base, i, ip);
      }
    }
  }

  lemma {:induction false} ShareMany(n: nat, max: int, s: State, base: nat, ip: IP, j: nat) returns (t: State)
    requires At(n, max, s) && j <= n && forall i :: 0 <= i < n ==> Pending(s, base, i, ip)
    ensures At(n, max, t) && CountOf(t.live, ip) == CountOf(s.live, ip) + j
    ensures forall i :: j <= i < n ==> Pending(t, base, i, ip)
  {
    if j == 0 {
      t := s;
    } else {
      var u := ShareMany(n, max, s, base, ip, j - 1);
      assert Pending(u, base, j - 1, ip);
      t := TakeShare(n, max, u, base + j - 1);
      forall i | j <= i < n
        ensures Pending(t, base, i, ip)
      {
        assert Pending(u, base, i, ip);
      }
    }
  }

  /** The bound is met: the last max - 1 come first, then all loops check before any counts. */
  lemma CapIsReached(n: nat, max: int, ip: IP) returns (s: State)
    requires n > 0 && max > 0
    ensures Reachable(n, max, s) && CountOf(s.live, ip) == max + n - 1
  {
    s := OpenMany(n, max, ip, max - 1);
    s := AdmitMany(n, max, s, max - 1, ip, n);
    s := ShareMany(n, max, s, max - 1, ip, n);
  }

  /** The configured maximum is a cap on counted connections exactly when there is one accept loop. */
  lemma MaximumIsACapIff(n: nat, max: int, ip: IP)
    requires n > 0 && max > 0
    ensures (forall s :: Reachable(n, max, s) ==> CountOf(s.live, ip) <= max) <==> n == 1
  {
    var over := CapIsReached(n, max, ip);
    assert Reachable(n, max, over);
    forall s | Reachable(n, max, s)
      ensures CountOf(s.live, ip) <= max + n - 1
    {
      CapPerIP(n, max, s, ip);
    }
  }

  ghost predicate CountOccurs(n: nat, max: int, ip: IP, k: nat) {
    exists s :: Reachable(n, max, s) && CountOf(s.live, ip) == k
  }

  /** Without a maximum there is no cap: every number of counted connections of one address occurs, exactly then. */
  lemma UncappedIff(n: nat, max: int, ip: IP)
    requires n > 0
    ensures (forall k :: CountOccurs(n, max, ip, k)) <==> max <= 0
  {
    if max <= 0 {
      forall k: nat
        ensures CountOccurs(n, max, ip, k)
      {
        var s := OpenMany(n, max, ip, k);
        assert Reachable(n, max, s);
      }
    } else {
      forall s | Reachable(n, max, s)
        ensures CountOf(s.live, ip) != max + n
      {
        CapPerIP(n, max, s, ip);
      }
      assert !CountOccurs(n, max, ip, max + n);
    }
  }

  lemma ReachRun(n: nat, max: int, s: State, run: seq<Action>)
    requires Reachable(n, max, s) && CanAll(s, run)
    ensures Reachable(n, max, DoAll(s, run))
    decreases |run|
  {
    if run != [] {
      ReachStep(n, max, s, run[0]);
      ReachRun(n, max, Do(s, run[0]), run[1..]);
    }
  }

  /** One backend with one connection, which is at k. */
  ghost predicate AtOne(max: int, s: State, loop: Loop, k: Conn) {
    Reachable(1, max, s) && s.loops == [loop] && |s.active| == |s.tracked| == 1 && s.conns == map[0 := k]
  }

  lemma BothPipesEnd(max: int, s: State, ip: IP) returns (t: State)
    requires AtOne(max, s, Accepting, Conn(ip, 0, Piping, Copying, Copying, Idle))
    ensures AtOne(max, t, Accepting, Conn(ip, 0, Piping, Exiting, Exiting, Idle))
  {
    ReachStep(1, max, s, PipeEnds(0, true));
    t := Do(s, PipeEnds(0, true));
    assert t.conns == map[0 := Conn(ip, 0, Piping, Exiting, Copying, Idle)];
    ReachStep(1, max, t, PipeEnds(0, false));
    t := Do(t, PipeEnds(0, false));
  }

  lemma ClosesBoth(max: int, s: State, ip: IP) returns (t: State)
    requires AtOne(max, s, Accepting, Conn(ip, 0, Piping, Exiting, Exiting, Idle))
    ensures AtOne(max, t, Accepting, Conn(ip, 0, Piping, Exiting, Exiting, Done))
  {
    CloseBothIsSevenActions(s, 0);
    hide Can, CanAll, DoAll, Repeat, Decremented, Do, Reachable, Ends;
    ReachRun(1, max, s, Repeat(CloseStep(0), 7));
    t := DoAll(s, Repeat(CloseStep(0), 7));
  }

  lemma BothFinish(max: int, s: State, ip: IP) returns (t: State)
    requires AtOne(max, s, Accepting, Conn(ip, 0, Piping, Exiting, Exiting, Done))
    ensures AtOne(max, t, Exited, Conn(ip, 0, Piping, Finished, Finished, Done))
  {
    ReachStep(1, max, s, Finish(0, true));
    t := Do(s, Finish(0, true));
    assert t.conns == map[0 := Conn(ip, 0, Piping, Finished, Exiting, Done)];
    ReachStep(1, max, t, Finish(0, false));
    t := Do(t, Finish(0, false));
    assert t.conns == map[0 := Conn(ip, 0, Piping, Finished, Finished, Done)];
    ReachStep(1, max, t, StopAccepting(0));
    t := Do(t, StopAccepting(0));
  }

  lemma NothingIsOpen(max: int, s: State, ip: IP)
    requires AtOne(max, s, Exited, Conn(ip, 0, Piping, Finished, Finished, Done))
    ensures WaitReturns(s, 0) && s.open == {} && s.live == map[]
  {
    ReachableInv(1, max, s);
    forall x
      ensures x !in s.open
    {
      assert x in s.open ==> SocketOk(s, x);
    }
    assert forall b :: 0 <= b < 1 ==> WaitReturns(s, b);
    TrackerEmptiesAtShutdown(1, max, s);
  }

  /**
   * A connection is served, ends and is released; its backend stops accepting,
   * and shutdown returns with nothing left; and it can be started again.
   */
  lemma ServedAndShutDown(max: int, ip: IP) returns (served: State, s: State, again: State)
    ensures Reachable(1, max, served) && served.open == Ends(0)
    ensures served.conns == map[0 := Conn(ip, 0, Piping, Copying, Copying, Idle)]
    ensures Reachable(1, max, s) && WaitReturns(s, 0) && s.open == {} && s.live == map[]
    ensures s.conns == map[0 := Conn(ip, 0, Piping, Finished, Finished, Done)]
    ensures Reachable(1, max, again) && again == s.(loops := [Accepting])
  {
    served := ServeOne(max, ip);
    hide Do, Can, CanAll, DoAll, Reachable;
    s := BothPipesEnd(max, served, ip);
    s := ClosesBoth(max, s, ip);
    s := BothFinish(max, s, ip);
    NothingIsOpen(max, s, ip);
    again := Restarts(max, s, ip);
  }

  lemma Restarts(max: int, s: State, ip: IP) returns (t: State)
    requires AtOne(max, s, Exited, Conn(ip, 0, Piping, Finished, Finished, Done)) && s.live == map[]
    ensures Reachable(1, max, t) && t == s.(loops := [Accepting]) && Can(t, Admit(0, 1, ip))
  {
    ReachStep(1, max, s, StartAccepting(0));
    t := Do(s, StartAccepting(0));
    assert t.loops == [Accepting];
  }

  lemma DialOne(max: int, ip: IP) returns (s: State)
    ensures AtOne(max, s, Handling(0), Conn(ip, 0, Dialled, NotStarted, NotStarted, Idle)) && s.open == Ends(0)
  {
    var s0 := Init(1, max);
    assert CanAll(s0, []) && DoAll(s0, []) == s0;
    ReachStep(1, max, s0, Admit(0, 0, ip));
    s := Do(s0, Admit(0, 0, ip));
    assert s.conns == map[0 := Conn(ip, 0, Admitted, NotStarted, NotStarted, Idle)] && s.open == {Socket(0, true)};
    ReachStep(1, max, s, Advance(0));
    s := Do(s, Advance(0));
  }

  lemma RegisterOne(max: int, s: State, ip: IP) returns (t: State)
    requires AtOne(max, s, Handling(0), Conn(ip, 0, Dialled, NotStarted, NotStarted, Idle))
    ensures AtOne(max, t, Handling(0), Conn(ip, 0, TrackedBoth, NotStarted, NotStarted, Idle)) && t.open == s.open
  {
    RegisterIsFourActions(s, 0);
    hide Do, Can, CanAll, DoAll, Repeat, Incremented, Reachable;
    ReachRun(1, max, s, Repeat(Advance(0), 4));
    t := DoAll(s, Repeat(Advance(0), 4));
  }

  lemma StartOne(max: int, s: State, ip: IP) returns (t: State)
    requires AtOne(max, s, Handling(0), Conn(ip, 0, TrackedBoth, NotStarted, NotStarted, Idle))
    ensures AtOne(max, t, Accepting, Conn(ip, 0, Piping, Copying, Copying, Idle)) && t.open == s.open
  {
    ReachStep(1, max, s, Advance(0));
    t := Do(s, Advance(0));
    assert t.conns == map[0 := Conn(ip, 0, HalfPiping, Copying, NotStarted, Idle)];
    ReachStep(1, max, t, Advance(0));
    t := Do(t, Advance(0));
  }

  /** From the accept to both goroutines. */
  lemma ServeOne(max: int, ip: IP) returns (s: State)
    ensures AtOne(max, s, Accepting, Conn(ip, 0, Piping, Copying, Copying, Idle)) && s.open == Ends(0)
  {
    hide AtOne;
    s := DialOne(max, ip);
    s := RegisterOne(max, s, ip);
    s := StartOne(max, s, ip);
  }

  // ---------- the code, run alone ----------

  /** Both ends of a connection. */
  function Ends(c: ConnId): set<Socket> {
    {Socket(c, true), Socket(c, false)}
  }

  function Repeat(a: Action, n: nat): seq<Action> {
    seq(n, i => a)
  }

  /** From the preamble to both counters. */
  lemma CountTwice(s: State, c: ConnId)
    requires Can(s, Advance(c)) && s.conns[c].phase == Dialled
    ensures var k, a := s.conns[c], Advance(c);
            && Can(Do(s, a), a)
            && Do(Do(s, a), a) == s.(conns := s.conns[c := k.(phase := Shared)],
                                     active := s.active[k.be := s.active[k.be] + 1],
                                     live := Incremented(s.live, k.ip))
  {
    hide Incremented;
    var k := s.conns[c];
    var t := s.(conns := s.conns[c := k.(phase := Active)], active := s.active[k.be := s.active[k.be] + 1]);
    assert Do(s, Advance(c)) == t;
    assert t.conns[c := k.(phase := Shared)] == s.conns[c := k.(phase := Shared)];
  }

  /** From the counters to both ends tracked. */
  lemma TrackTwice(s: State, c: ConnId)
    requires Can(s, Advance(c)) && s.conns[c].phase == Shared
    ensures var k, a := s.conns[c], Advance(c);
            && Can(Do(s, a), a)
            && Do(Do(s, a), a) == s.(conns := s.conns[c := k.(phase := TrackedBoth)],
                                     tracked := s.tracked[k.be := s.tracked[k.be] + Ends(c)])
  {
    var k := s.conns[c];
    var one := s.tracked[k.be] + {Socket(c, true)};
    var t := s.(conns := s.conns[c := k.(phase := TrackedOne)], tracked := s.tracked[k.be := one]);
    assert Do(s, Advance(c)) == t;
    assert t.conns[c := k.(phase := TrackedBoth)] == s.conns[c := k.(phase := TrackedBoth)];
    assert one + {Socket(c, false)} == s.tracked[k.be] + Ends(c);
    assert t.tracked[k.be := s.tracked[k.be] + Ends(c)] == s.tracked[k.be := s.tracked[k.be] + Ends(c)];
  }

  /** Uninterrupted, the actions from the preamble to the first goroutine. */
  lemma RegisterIsFourActions(s: State, c: ConnId)
    requires Can(s, Advance(c)) && s.conns[c].phase == Dialled
    ensures var k, run := s.conns[c], Repeat(Advance(c), 4);
            && CanAll(s, run)
            && DoAll(s, run) ==
               s.(conns := s.conns[c := k.(phase := TrackedBoth)],
                  active := s.active[k.be := s.active[k.be] + 1],
                  live := Incremented(s.live, k.ip),
                  tracked := s.tracked[k.be := s.tracked[k.be] + Ends(c)])
  {
    hide Do, Incremented, Ends, CanAll, DoAll, Repeat;
    var k, a := s.conns[c], Advance(c);
    CountTwice(s, c);
    var t := Do(Do(s, a), a);
    TrackTwice(t, c);
    assert t.conns[c := k.(phase := TrackedBoth)] == s.conns[c := k.(phase := TrackedBoth)];
    FourActions(s, a);
  }

  lemma FourActions(s: State, a: Action)
    requires Can(s, a) && Can(Do(s, a), a) && Can(Do(Do(s, a), a), a) && Can(Do(Do(Do(s, a), a), a), a)
    ensures CanAll(s, Repeat(a, 4)) && DoAll(s, Repeat(a, 4)) == Do(Do(Do(Do(s, a), a), a), a)
  {
    assert CanAll(s, []) && DoAll(s, []) == s;
    hide Do, Can, CanAll, DoAll;
    RunAppend(s, [], a);
    RunAppend(s, [a], a);
    RunAppend(s, [a, a], a);
    RunAppend(s, [a, a, a], a);
    assert [] + [a] == [a] && [a] + [a] == [a, a] && [a, a] + [a] == [a, a, a] && [a, a, a] + [a] == Repeat(a, 4);
  }

  /** Uninterrupted, the actions of once.Do. */
  lemma CloseBothIsSevenActions(s: State, c: ConnId)
    requires Can(s, CloseStep(c)) && s.conns[c].once == Idle
    ensures var k, run := s.conns[c], Repeat(CloseStep(c), 7);
            && CanAll(s, run)
            && DoAll(s, run) ==
               s.(conns := s.conns[c := k.(once := Done)],
                  active := s.active[k.be := s.active[k.be] - 1],
                  live := Decremented(s.live, k.ip),
                  tracked := s.tracked[k.be := s.tracked[k.be] - Ends(c)],
                  open := s.open - Ends(c))
  {
    CloseSteps(s, c, 7);
    ClosedAll(s, c);
    hide *;
  }

  lemma ClosedAll(s: State, c: ConnId)
    requires Can(s, CloseStep(c))
    ensures var k := s.conns[c];
            Closed(s, c, 7) ==
            s.(conns := s.conns[c := k.(once := Done)],
               active := s.active[k.be := s.active[k.be] - 1],
               live := Decremented(s.live, k.ip),
               tracked := s.tracked[k.be := s.tracked[k.be] - Ends(c)],
               open := s.open - Ends(c))
  {
    hide Decremented;
  }

  lemma {:induction false} CloseSteps(s: State, c: ConnId, i: nat)
    requires Can(s, CloseStep(c)) && s.conns[c].once == Idle && i <= 7
    ensures CanAll(s, Repeat(CloseStep(c), i)) && DoAll(s, Repeat(CloseStep(c), i)) == Closed(s, c, i)
  {
    var a := CloseStep(c);
    if i == 0 {
      assert Repeat(a, 0) == [] && Closed(s, c, 0) == s;
    } else {
      ClosedStep(s, c, i - 1);
      hide Can, Do, Closed;
      CloseSteps(s, c, i - 1);
      RunAppend(s, Repeat(a, i - 1), a);
      assert Repeat(a, i - 1) + [a] == Repeat(a, i);
    }
  }

  /** After i of those seven actions. */
  function Closed(s: State, c: ConnId, i: nat): State
    requires Can(s, CloseStep(c)) && i <= 7
  {
    var k := s.conns[c];
    State(s.max,
          if i == 0 then s.conns else s.conns[c := k.(once := if i == 7 then Done else Running(i - 1))],
          s.loops,
          if i < 6 then s.live else Decremented(s.live, k.ip),
          if i < 7 then s.active else s.active[k.be := s.active[k.be] - 1],
          if i < 4 then s.tracked else s.tracked[k.be := s.tracked[k.be] - FirstEnds(c, i - 3)],
          if i < 2 then s.open else s.open - FirstEnds(c, i - 1))
  }

  function FirstEnds(c: ConnId, i: nat): set<Socket> {
    if i == 1 then {Socket(c, true)} else Ends(c)
  }

  lemma ClosedStep(s: State, c: ConnId, i: nat)
    requires Can(s, CloseStep(c)) && s.conns[c].once == Idle && i < 7
    ensures var t, a := Closed(s, c, i), CloseStep(c); Can(t, a) && Do(t, a) == Closed(s, c, i + 1)
  {
    hide Decremented;
    var t, k := Closed(s, c, i), s.conns[c];
    var u, v := Do(t, CloseStep(c)), Closed(s, c, i + 1);
    assert u.conns == v.conns;
    if i == 2 {
      assert u.open == v.open by { assert s.open - FirstEnds(c, 1) - {Socket(c, false)} == s.open - Ends(c); }
    }
    if i == 4 {
      var w := s.tracked[k.be];
      assert w - FirstEnds(c, 1) - {Socket(c, false)} == w - Ends(c);
      assert u.tracked == v.tracked;
    }
  }

  /** Connection c of backend b is next to be registered. */
  predicate Registers(s: State, c: ConnId, ip: IP, b: nat) {
    Can(s, Advance(c)) && s.conns[c].phase == Dialled && s.conns[c].ip == ip && s.conns[c].be == b
  }

  /** closeBoth has been called for connection c of backend b, for the first time. */
  predicate Releases(s: State, c: ConnId, ip: IP, b: nat) {
    Can(s, CloseStep(c)) && s.conns[c].once == Idle && s.conns[c].ip == ip && s.conns[c].be == b
  }

  /**
   * The bookkeeping of one Backend, and the open sockets. Run uninterrupted from
   * where the machine stands, its methods end where their actions end.
   */
  class Backend {
    const tracker: IpConnTracker
    var active: int
    var conns: set<Socket>
    var open: set<Socket>

    /** The machine is in s, and this is its backend number b. */
    ghost predicate Is(s: State, b: nat)
      reads this, tracker
    {
      && b < |s.active| == |s.tracked|
      && active == s.active[b] && conns == s.tracked[b] && open == s.open && tracker.live == s.live
    }

    constructor (tracker: IpConnTracker)
      ensures this.tracker == tracker && active == 0 && conns == {} && open == {}
    {
      this.tracker := tracker;
      active := 0;
      conns := {};
      open := {};
    }

    method TrackConn(x: Socket)
      modifies this`conns
      ensures conns == old(conns) + {x}
    {
      conns := conns + {x};
    }

    method UntrackConn(x: Socket)
      modifies this`conns
      ensures conns == old(conns) - {x}
    {
      conns := conns - {x};
    }

    /** What handleConn does between a successful preamble and its goroutines. */
    method Register(c: ConnId, ip: IP)
      modifies this`active, this`conns, tracker
      ensures active == old(active) + 1
      ensures tracker.live == Incremented(old(tracker.live), ip)
      ensures conns == old(conns) + Ends(c)
      ensures forall s, b :: old(Is(s, b)) && Registers(s, c, ip, b) ==>
                var run := Repeat(Advance(c), 4); CanAll(s, run) && Is(DoAll(s, run), b)
    {
      active := active + 1;
      tracker.Inc(ip);
      TrackConn(Socket(c, true));
      TrackConn(Socket(c, false));
      forall s, b | old(Is(s, b)) && Registers(s, c, ip, b)
        ensures var run := Repeat(Advance(c), 4); CanAll(s, run) && Is(DoAll(s, run), b)
      {
        RegisterIsFourActions(s, c);
      }
    }

    method CloseBoth(c: ConnId, ip: IP)
      modifies this, tracker
      ensures open == old(open) - Ends(c) && conns == old(conns) - Ends(c)
      ensures tracker.live == Decremented(old(tracker.live), ip)
      ensures active == old(active) - 1
      ensures forall s, b :: old(Is(s, b)) && Releases(s, c, ip, b) ==>
                var run := Repeat(CloseStep(c), 7); CanAll(s, run) && Is(DoAll(s, run), b)
    {
      open := open - {Socket(c, true)};
      open := open - {Socket(c, false)};
      UntrackConn(Socket(c, true));
      UntrackConn(Socket(c, false));
      tracker.Dec(ip);
      active := active - 1;
      forall s, b | old(Is(s, b)) && Releases(s, c, ip, b)
        ensures var run := Repeat(CloseStep(c), 7); CanAll(s, run) && Is(DoAll(s, run), b)
      {
        CloseBothIsSevenActions(s, c);
      }
    }

    method ForceCloseConns()
      modifies this`open, this`conns
      ensures open == old(open) - old(conns) && conns == {}
      ensures forall s, b :: old(Is(s, b)) ==> Is(Do(s, ForceClose(b)), b)
    {
      var left := conns;
      while left != {}
        invariant left <= conns == old(conns)
        invariant open == old(open) - (conns - left)
        decreases left
      {
        var x :| x in left;
        open := open - {x};
        left := left - {x};
      }
      conns := {};
    }
  }
}
