/**
 * The UDP session table: internal/proxy/udp.go. The packet loop, one reader per
 * session and Close interleave; an action is what one of them does while it
 * holds the mutex or between two points where another may run. Timers are
 * ideal: a read deadline fires at its instant, and time does not pass it.
 */
module UdpSessions {
  import opened Common

  type Client = string
  type SessionId = nat

  /** readLoop: blocked in a read, in dropSession before and after the lock, or returned. */
  datatype Reader =
    | Waiting(deadline: int)
    | Dropping
    | Closing
    | Gone(writeFailed: bool)

  /**
   * A session and its upstream socket share one id. emptyAt: when its last empty
   * reply came, or when it was created. late: created after Close had emptied
   * the table.
   */
  datatype Session = Session(client: Client, lastSeen: int, reader: Reader, late: bool, emptyAt: int)

  /** handlePacket: between packets, before getOrCreate, holding a session, having stamped it, or in dropSession. */
  datatype Handler =
    | Idle
    | Received(client: Client)
    | Chosen(id: SessionId, client: Client)
    | Stamped(id: SessionId, client: Client, at: int)
    | HDropping(client: Client)
    | HClosing
    | Stopped

  datatype Thread = Packets | ReaderOf(id: SessionId)

  /** A datagram passed on: from a client out of an upstream socket, or from that socket to a client, and when. */
  datatype Traffic = Up(id: SessionId, client: Client, at: int) | Down(id: SessionId, client: Client, at: int)

  datatype State = State(
    timeout: int,
    now: int,
    sessions: map<SessionId, Session>,      // every session ever created
    table: map<Client, SessionId>,          // u.sessions
    open: set<SessionId>,                   // sockets not closed
    closing: map<Thread, SessionId>,        // removed from the table, not yet closed
    handler: Handler,
    stopping: bool,                         // Close has closed u.ctx and u.conn
    cleared: bool,                          // Close has emptied the table
    log: seq<Traffic>)

  datatype Action =
    | Tick(d: int)
    | Packet(client: Client)                  // a datagram is read
    | GetOrCreate(up: Option<SessionId>)      // up: what ListenUDP would give
    | Stamp
    | Send(ok: bool)
    | HDrop
    | HClose
    | Stop
    | Reply(id: SessionId, ok: bool)
    | EmptyReply(id: SessionId)               // restarts the timer and is not activity
    | Timeout(id: SessionId)
    | ReadError(id: SessionId)
    | Drop(id: SessionId)
    | CloseDropped(id: SessionId)
    | BeginClose
    | ClearTable

  // ---------- the critical sections ----------

  /** The locked half of dropSession: by key, whichever session that is now. */
  function Without(table: map<Client, SessionId>, client: Client): map<Client, SessionId> {
    table - {client}
  }

  function Held(closing: map<Thread, SessionId>, t: Thread, table: map<Client, SessionId>, client: Client)
    : map<Thread, SessionId>
  {
    if client in table then closing[t := table[client]] else closing
  }

  predicate ReaderIs(s: State, id: SessionId, r: Reader) {
    id in s.sessions && s.sessions[id].reader == r
  }

  predicate IsWaiting(s: State, id: SessionId) {
    id in s.sessions && s.sessions[id].reader.Waiting?
  }

  predicate Can(s: State, a: Action) {
    match a
    case Tick(d) =>
      && d >= 0
      && forall id :: id in s.open && IsWaiting(s, id) ==> s.now + d <= s.sessions[id].reader.deadline
    case Packet(client) => s.handler == Idle && !s.stopping
    case GetOrCreate(up) => s.handler.Received? && (up.Some? ==> up.value !in s.sessions)
    case Stamp => s.handler.Chosen? && s.handler.id in s.sessions
    case Send(ok) => s.handler.Stamped? && (ok ==> s.handler.id in s.open)
    case HDrop => s.handler.HDropping?
    case HClose => s.handler == HClosing
    case Stop => s.handler == Idle && s.stopping
    case Reply(id, ok) => IsWaiting(s, id) && id in s.open
    case EmptyReply(id) => IsWaiting(s, id) && id in s.open
    case Timeout(id) => IsWaiting(s, id) && id in s.open && s.now == s.sessions[id].reader.deadline
    case ReadError(id) => IsWaiting(s, id)
    case Drop(id) => ReaderIs(s, id, Dropping)
    case CloseDropped(id) => ReaderIs(s, id, Closing)
    case BeginClose => !s.stopping
    case ClearTable => s.stopping && !s.cleared
  }

  predicate Expired(s: State, id: SessionId)
    requires id in s.sessions
  {
    s.now - s.sessions[id].lastSeen > s.timeout
  }

  function WithReader(s: State, id: SessionId, r: Reader): (t: State)
    requires id in s.sessions
    ensures t == s.(sessions := t.sessions)
  {
    s.(sessions := s.sessions[id := s.sessions[id].(reader := r)])
  }

  function Seen(s: State, id: SessionId): (t: State)
    requires id in s.sessions
    ensures t == s.(sessions := t.sessions)
  {
    s.(sessions := s.sessions[id := s.sessions[id].(lastSeen := s.now)])
  }

  function Unheld(s: State, t: Thread): (u: State)
    ensures u == s.(open := u.open, closing := u.closing)
  {
    if t in s.closing then s.(open := s.open - {s.closing[t]}, closing := s.closing - {t}) else s
  }

  function Do(s: State, a: Action): State
    requires Can(s, a)
  {
    match a
    case Tick(d) => s.(now := s.now + d)
    case Packet(client) => s.(handler := Received(client))
    case GetOrCreate(up) =>
      var client := s.handler.client;
      if client in s.table then s.(handler := Chosen(s.table[client], client))
      else if up == None then s.(handler := Idle)
      else
        var id := up.value;
        s.(sessions := s.sessions[id := Session(client, s.now, Waiting(s.now + s.timeout), s.cleared, s.now)],
           table := s.table[client := id], open := s.open + {id}, handler := Chosen(id, client))
    case Stamp => Seen(s, s.handler.id).(handler := Stamped(s.handler.id, s.handler.client, s.now))
    case Send(ok) =>
      if ok then s.(handler := Idle, log := s.log + [Up(s.handler.id, s.handler.client, s.handler.at)])
      else s.(handler := HDropping(s.handler.client))
    case HDrop =>
      s.(closing := Held(s.closing, Packets, s.table, s.handler.client),
         table := Without(s.table, s.handler.client), handler := HClosing)
    case HClose => Unheld(s, Packets).(handler := Idle)
    case Stop => s.(handler := Stopped)
    case Reply(id, ok) =>
      if ok then
        WithReader(Seen(s, id), id, Waiting(s.now + s.timeout)).(log := s.log + [Down(id, s.sessions[id].client, s.now)])
      else WithReader(s, id, Gone(true))
    case EmptyReply(id) =>
      s.(sessions := s.sessions[id := s.sessions[id].(reader := Waiting(s.now + s.timeout), emptyAt := s.now)])
    case Timeout(id) => WithReader(s, id, if Expired(s, id) then Dropping else Waiting(s.now + s.timeout))
    case ReadError(id) => WithReader(s, id, Dropping)
    case Drop(id) =>
      var client := s.sessions[id].client;
      WithReader(s, id, Closing).(closing := Held(s.closing, ReaderOf(id), s.table, client),
                                  table := Without(s.table, client))
    case CloseDropped(id) => WithReader(Unheld(s, ReaderOf(id)), id, Gone(false))
    case BeginClose => s.(stopping := true)
    case ClearTable => s.(open := s.open - s.table.Values, table := map[], cleared := true)
  }

  function Init(timeout: int): State {
    State(timeout, 0, map[], map[], {}, map[], Idle, false, false, [])
  }

  predicate CanAll(s: State, run: seq<Action>)
    decreases |run|
  {
    run == [] || (Can(s, run[0]) && CanAll(Do(s, run[0]), run[1..]))
  }

  function DoAll(s: State, run: seq<Action>): State
    requires CanAll(s, run)
    decreases |run|
  {
    if run == [] then s else DoAll(Do(s, run[0]), run[1..])
  }

  // ---------- sockets, the table and the droppers ----------

  /** The client of every session ever created; a session never changes it. */
  function Clients(s: State): map<SessionId, Client> {
    map id | id in s.sessions :: s.sessions[id].client
  }

  predicate Tabled(clients: map<SessionId, Client>, table: map<Client, SessionId>, id: SessionId) {
    id in clients && clients[id] in table && table[clients[id]] == id
  }

  ghost predicate BeingClosed(closing: map<Thread, SessionId>, id: SessionId) {
    exists t :: t in closing && closing[t] == id
  }

  /**
   * The table maps a client to a session of that client. The open sockets are
   * exactly those of sessions in the table and of sessions one dropSession has
   * removed and is about to close; no session is both, or with two droppers.
   */
  ghost predicate SocketsOk(clients: map<SessionId, Client>, table: map<Client, SessionId>,
                            closing: map<Thread, SessionId>, open: set<SessionId>) {
    && (forall c :: c in table ==> table[c] in clients && clients[table[c]] == c)
    && (forall t :: t in closing ==> closing[t] in clients && !Tabled(clients, table, closing[t]))
    && (forall t, u :: t in closing && u in closing && closing[t] == closing[u] ==> t == u)
    && (forall id :: id in open <==> Tabled(clients, table, id) || BeingClosed(closing, id))
  }

  lemma CreateKeeps(clients: map<SessionId, Client>, table: map<Client, SessionId>,
                    closing: map<Thread, SessionId>, open: set<SessionId>, c: Client, id: SessionId)
    requires SocketsOk(clients, table, closing, open) && c !in table && id !in clients
    ensures SocketsOk(clients[id := c], table[c := id], closing, open + {id})
  {
    assert !BeingClosed(closing, id);
    forall x
      ensures x != id ==> (Tabled(clients[id := c], table[c := id], x) <==> Tabled(clients, table, x))
    {
    }
  }

  lemma TakeKeeps(clients: map<SessionId, Client>, table: map<Client, SessionId>,
                  closing: map<Thread, SessionId>, open: set<SessionId>, t: Thread, c: Client)
    requires SocketsOk(clients, table, closing, open) && t !in closing
    ensures SocketsOk(clients, Without(table, c), Held(closing, t, table, c), open)
  {
    var table', closing' := Without(table, c), Held(closing, t, table, c);
    forall id
      ensures Tabled(clients, table', id) <==> Tabled(clients, table, id) && clients[id] != c
      ensures BeingClosed(closing', id) <==> BeingClosed(closing, id) || (c in table && table[c] == id)
    {
      if c in table {
        assert closing'[t] == table[c];
      }
      if BeingClosed(closing, id) {
        var u :| u in closing && closing[u] == id;
        assert u in closing' && closing'[u] == id;
      }
    }
  }

  lemma ReleaseKeeps(clients: map<SessionId, Client>, table: map<Client, SessionId>,
                     closing: map<Thread, SessionId>, open: set<SessionId>, t: Thread)
    requires SocketsOk(clients, table, closing, open) && t in closing
    ensures SocketsOk(clients, table, closing - {t}, open - {closing[t]})
  {
    forall id
      ensures BeingClosed(closing - {t}, id) <==> BeingClosed(closing, id) && id != closing[t]
    {
      if BeingClosed(closing, id) && id != closing[t] {
        var u :| u in closing && closing[u] == id;
        assert u in closing - {t} && (closing - {t})[u] == id;
      }
    }
  }

  lemma ClearKeeps(clients: map<SessionId, Client>, table: map<Client, SessionId>,
                   closing: map<Thread, SessionId>, open: set<SessionId>)
    requires SocketsOk(clients, table, closing, open)
    ensures SocketsOk(clients, map[], closing, open - table.Values)
  {
    forall id
      ensures Tabled(clients, table, id) <==> id in table.Values
    {
      if id in table.Values {
        var c :| c in table && table[c] == id;
      }
    }
    assert forall id :: BeingClosed(closing, id) ==> !Tabled(clients, table, id);
  }

  // ---------- the invariant ----------

  predicate InTable(s: State, id: SessionId) {
    Tabled(Clients(s), s.table, id)
  }

  /** Only a thread past the lock of dropSession holds a session to close. */
  predicate ThreadsOk(s: State) {
    && (Packets in s.closing ==> s.handler == HClosing)
    && (forall t :: t in s.closing && t.ReaderOf? ==> ReaderIs(s, t.id, Closing))
  }

  predicate RecordOk(s: State, id: SessionId, x: Session) {
    && x.lastSeen <= s.now && x.emptyAt <= s.now
    && (x.reader == Closing || x.reader == Gone(false) ==> !InTable(s, id))
    && (InTable(s, id) && s.cleared ==> x.late)
    && (x.reader.Waiting? && id in s.open ==>
          && s.now <= x.reader.deadline <= s.now + s.timeout
          && (if x.emptyAt <= x.lastSeen then x.reader.deadline - 2 * s.timeout <= x.lastSeen
              else x.reader.deadline == x.emptyAt + s.timeout))
  }

  predicate RecordsOk(s: State) {
    forall id :: id in s.sessions ==> RecordOk(s, id, s.sessions[id])
  }

  predicate HandlerOk(s: State) {
    s.handler.Chosen? || s.handler.Stamped? ==>
      && s.handler.id in s.sessions && s.sessions[s.handler.id].client == s.handler.client
      && (s.handler.Stamped? ==> s.handler.at <= s.sessions[s.handler.id].lastSeen)
  }

  /** Traffic is its session's client's, and its session has been seen since. */
  predicate Routed(s: State, e: Traffic) {
    e.id in s.sessions && s.sessions[e.id].client == e.client && e.at <= s.sessions[e.id].lastSeen
  }

  predicate LogOk(s: State) {
    forall e :: e in s.log ==> Routed(s, e)
  }

  ghost predicate Inv(s: State) {
    && s.timeout > 0
    && SocketsOk(Clients(s), s.table, s.closing, s.open)
    && ThreadsOk(s) && HandlerOk(s) && RecordsOk(s) && LogOk(s)
  }

  predicate Creates(s: State, a: Action)
    requires Can(s, a)
  {
    a.GetOrCreate? && s.handler.client !in s.table && a.up.Some?
  }

  /** The session an action writes to, if any. */
  function Touched(s: State, a: Action): Option<SessionId> {
    match a
    case Stamp => if s.handler.Chosen? then Some(s.handler.id) else None
    case Reply(id, _) => Some(id)
    case EmptyReply(id) => Some(id)
    case Timeout(id) => Some(id)
    case ReadError(id) => Some(id)
    case Drop(id) => Some(id)
    case CloseDropped(id) => Some(id)
    case _ => None
  }

  /** What an action makes of the session it writes to. */
  function Rewritten(s: State, a: Action, x: Session): Session {
    match a
    case Stamp => x.(lastSeen := s.now)
    case Reply(_, ok) =>
      if ok then x.(lastSeen := s.now, reader := Waiting(s.now + s.timeout)) else x.(reader := Gone(true))
    case EmptyReply(_) => x.(reader := Waiting(s.now + s.timeout), emptyAt := s.now)
    case Timeout(_) =>
      x.(reader := if s.now - x.lastSeen > s.timeout then Dropping else Waiting(s.now + s.timeout))
    case ReadError(_) => x.(reader := Dropping)
    case Drop(_) => x.(reader := Closing)
    case CloseDropped(_) => x.(reader := Gone(false))
    case _ => x
  }

  predicate ByReader(a: Action) {
    a.Reply? || a.EmptyReply? || a.Timeout? || a.ReadError? || a.Drop? || a.CloseDropped?
  }

  predicate ByPackets(a: Action) {
    a.Stamp? || a.Send? || a.HDrop? || a.HClose?
  }

  lemma SessionsAfterReader(s: State, a: Action)
    requires Can(s, a) && ByReader(a)
    ensures Touched(s, a).Some? && Touched(s, a).value in s.sessions
    ensures var id := Touched(s, a).value;
            Do(s, a).sessions == s.sessions[id := Rewritten(s, a, s.sessions[id])]
  {
    hide Without, Held;
  }

  lemma SessionsAfterOther(s: State, a: Action)
    requires Can(s, a) && !ByReader(a)
    ensures a.Stamp? ==> s.handler.Chosen? && s.handler.id in s.sessions
    ensures Do(s, a).sessions ==
            if Creates(s, a) then
              s.sessions[a.up.value := Session(s.handler.client, s.now, Waiting(s.now + s.timeout), s.cleared, s.now)]
            else if a.Stamp? then
              s.sessions[s.handler.id := s.sessions[s.handler.id].(lastSeen := s.now)]
            else s.sessions
  {
    hide IsWaiting, ReaderIs, Without, Held, Expired, WithReader;
  }

  lemma SessionsAfter(s: State, a: Action)
    requires Can(s, a)
    ensures Touched(s, a).Some? ==> Touched(s, a).value in s.sessions
    ensures Do(s, a).sessions ==
            if Creates(s, a) then
              s.sessions[a.up.value := Session(s.handler.client, s.now, Waiting(s.now + s.timeout), s.cleared, s.now)]
            else if Touched(s, a).Some? then
              var id := Touched(s, a).value;
              s.sessions[id := Rewritten(s, a, s.sessions[id])]
            else s.sessions
  {
    if ByReader(a) {
      SessionsAfterReader(s, a);
    } else {
      SessionsAfterOther(s, a);
    }
    hide Do, Can;
  }

  /** What an action does to the clock and the settings. */
  predicate Frame(s: State, a: Action, t: State) {
    && t.timeout == s.timeout
    && t.now == (if a.Tick? then s.now + a.d else s.now)
    && t.cleared == (s.cleared || a.ClearTable?)
  }

  lemma FrameOfReader(s: State, a: Action)
    requires Can(s, a) && ByReader(a)
    ensures Frame(s, a, Do(s, a))
  {
    hide Without, Held, Expired, WithReader, Seen, Unheld;
  }

  lemma FrameOfPackets(s: State, a: Action)
    requires Can(s, a) && ByPackets(a)
    ensures Frame(s, a, Do(s, a))
  {
    hide Without, Held, Seen, Unheld;
  }

  lemma FrameOfOther(s: State, a: Action)
    requires Can(s, a) && !ByReader(a) && !ByPackets(a)
    ensures Frame(s, a, Do(s, a))
  {
    hide IsWaiting;
  }

  lemma RestAfter(s: State, a: Action)
    requires Can(s, a)
    ensures Frame(s, a, Do(s, a))
  {
    hide Do, Can, Frame;
    if ByReader(a) {
      FrameOfReader(s, a);
    } else if ByPackets(a) {
      FrameOfPackets(s, a);
    } else {
      FrameOfOther(s, a);
    }
  }

  lemma ClientsAfter(s: State, a: Action)
    requires Can(s, a)
    ensures Clients(Do(s, a)) == if Creates(s, a) then Clients(s)[a.up.value := s.handler.client] else Clients(s)
  {
    SessionsAfter(s, a);
    hide Do, Can;
  }

  /** The table, the droppers and the open sockets change only in these ways. */
  function Moved(s: State, a: Action): (map<Client, SessionId>, map<Thread, SessionId>, set<SessionId>)
    requires Can(s, a)
  {
    match a
    case GetOrCreate(up) =>
      if Creates(s, a) then (s.table[s.handler.client := up.value], s.closing, s.open + {up.value})
      else (s.table, s.closing, s.open)
    case HDrop =>
      (Without(s.table, s.handler.client), Held(s.closing, Packets, s.table, s.handler.client), s.open)
    case HClose => (s.table, Unheld(s, Packets).closing, Unheld(s, Packets).open)
    case Drop(id) =>
      var c := s.sessions[id].client;
      (Without(s.table, c), Held(s.closing, ReaderOf(id), s.table, c), s.open)
    case CloseDropped(id) => (s.table, Unheld(s, ReaderOf(id)).closing, Unheld(s, ReaderOf(id)).open)
    case ClearTable => (map[], s.closing, s.open - s.table.Values)
    case _ => (s.table, s.closing, s.open)
  }

  lemma SocketsAfterReader(s: State, a: Action)
    requires Can(s, a) && ByReader(a)
    ensures var t := Do(s, a); (t.table, t.closing, t.open) == Moved(s, a)
  {
    hide Without, Held, Expired, WithReader, Seen, Unheld;
  }

  lemma SocketsAfterPackets(s: State, a: Action)
    requires Can(s, a) && ByPackets(a)
    ensures var t := Do(s, a); (t.table, t.closing, t.open) == Moved(s, a)
  {
    hide Without, Held, WithReader, Seen, Unheld;
  }

  lemma SocketsAfterOther(s: State, a: Action)
    requires Can(s, a) && !ByReader(a) && !ByPackets(a)
    ensures var t := Do(s, a); (t.table, t.closing, t.open) == Moved(s, a)
  {
    hide IsWaiting, ReaderIs, Without, Held, Expired, WithReader, Seen, Unheld;
  }

  lemma SocketsAfter(s: State, a: Action)
    requires Can(s, a)
    ensures var t := Do(s, a); (t.table, t.closing, t.open) == Moved(s, a)
  {
    hide Do, Can, Moved;
    if ByReader(a) {
      SocketsAfterReader(s, a);
    } else if ByPackets(a) {
      SocketsAfterPackets(s, a);
    } else {
      SocketsAfterOther(s, a);
    }
  }

  lemma SocketsKeep(s: State, a: Action)
    requires Inv(s) && Can(s, a)
    ensures var t := Do(s, a); SocketsOk(Clients(t), t.table, t.closing, t.open)
  {
    ClientsAfter(s, a);
    SocketsAfter(s, a);
    hide SocketsOk, Tabled, LogOk, RecordsOk, HandlerOk, Do, Clients;
    match a
    case GetOrCreate(up) =>
      if Creates(s, a) {
        NewId(s, up.value);
        CreateKeeps(Clients(s), s.table, s.closing, s.open, s.handler.client, up.value);
      }
    case HDrop => TakeKeeps(Clients(s), s.table, s.closing, s.open, Packets, s.handler.client);
    case HClose =>
      if Packets in s.closing {
        ReleaseKeeps(Clients(s), s.table, s.closing, s.open, Packets);
      }
    case Drop(id) => TakeKeeps(Clients(s), s.table, s.closing, s.open, ReaderOf(id), s.sessions[id].client);
    case CloseDropped(id) =>
      if ReaderOf(id) in s.closing {
        ReleaseKeeps(Clients(s), s.table, s.closing, s.open, ReaderOf(id));
      }
    case ClearTable => ClearKeeps(Clients(s), s.table, s.closing, s.open);
    case _ =>
  }

  lemma NewId(s: State, id: SessionId)
    requires id !in s.sessions
    ensures id !in Clients(s)
  {
  }

  /** Sessions are not forgotten, keep their client, and are not seen earlier than they were. */
  lemma SessionsStay(s: State, a: Action, id: SessionId)
    requires Can(s, a) && id in s.sessions && s.sessions[id].lastSeen <= s.now
    ensures id in Do(s, a).sessions && Do(s, a).sessions[id].client == s.sessions[id].client
    ensures s.sessions[id].lastSeen <= Do(s, a).sessions[id].lastSeen
  {
    SessionsAfter(s, a);
    assert Creates(s, a) ==> a.up.value != id;
    hide Do, Can;
  }

  /** Except by creation, sessions only ever leave the table, and sockets are only ever closed. */
  lemma TableShrinks(s: State, a: Action, id: SessionId)
    requires Inv(s) && Can(s, a) && id in s.sessions
    ensures var t := Do(s, a);
            && (InTable(t, id) ==> InTable(s, id))
            && (id in t.open ==> id in s.open)
  {
    ClientsAfter(s, a);
    SocketsAfter(s, a);
    hide Do, LogOk, RecordsOk, HandlerOk, SocketsOk;
  }

  lemma OthersKeep(s: State, a: Action, id: SessionId)
    requires Inv(s) && Can(s, a) && id in s.sessions && Touched(s, a) != Some(id)
    ensures id in Do(s, a).sessions && RecordOk(Do(s, a), id, Do(s, a).sessions[id])
  {
    SessionsAfter(s, a);
    SocketsAfter(s, a);
    RestAfter(s, a);
    TableShrinks(s, a, id);
    assert RecordOk(s, id, s.sessions[id]);
    assert a.ClearTable? ==> !InTable(Do(s, a), id);
    assert Creates(s, a) ==> a.up.value != id;
    hide SocketsOk, LogOk, Tabled, InTable, RecordsOk, HandlerOk, ThreadsOk, Do, Without, Held, Unheld;
  }

  lemma DroppedLeaves(s: State, id: SessionId)
    requires Can(s, Drop(id))
    ensures !InTable(Do(s, Drop(id)), id)
  {
    ClientsAfter(s, Drop(id));
    SocketsAfter(s, Drop(id));
    hide Do, Held, Unheld;
  }

  lemma RewrittenOk(s: State, a: Action, id: SessionId, t: State)
    requires id in s.sessions && RecordOk(s, id, s.sessions[id]) && s.timeout > 0
    requires Can(s, a) && Touched(s, a) == Some(id)
    requires Frame(s, a, t) && (InTable(t, id) ==> InTable(s, id) && !a.Drop?) && (id in t.open ==> id in s.open)
    ensures RecordOk(t, id, Rewritten(s, a, s.sessions[id]))
  {
    hide InTable;
  }

  lemma TouchedKeeps(s: State, a: Action, id: SessionId)
    requires Inv(s) && Can(s, a) && id in s.sessions && Touched(s, a) == Some(id)
    ensures id in Do(s, a).sessions && RecordOk(Do(s, a), id, Do(s, a).sessions[id])
  {
    hide Can, Do, RecordOk, Rewritten, InTable, Frame, SocketsOk;
    SessionsAfter(s, a);
    RestAfter(s, a);
    TableShrinks(s, a, id);
    if a.Drop? {
      DroppedLeaves(s, id);
    }
    assert !Creates(s, a);
    RewrittenOk(s, a, id, Do(s, a));
  }

  lemma RecordsKeep(s: State, a: Action)
    requires Inv(s) && Can(s, a)
    ensures RecordsOk(Do(s, a))
  {
    SessionsAfter(s, a);
    RestAfter(s, a);
    var t := Do(s, a);
    hide Do, Can, Inv, RecordOk;
    forall id | id in t.sessions
      ensures RecordOk(t, id, t.sessions[id])
    {
      if id !in s.sessions {
        CreatedOk(s, a);
      } else if Touched(s, a) == Some(id) {
        TouchedKeeps(s, a, id);
      } else {
        OthersKeep(s, a, id);
      }
    }
  }

  lemma CreatedOk(s: State, a: Action)
    requires Inv(s) && Can(s, a) && Creates(s, a)
    ensures a.up.value in Do(s, a).sessions && RecordOk(Do(s, a), a.up.value, Do(s, a).sessions[a.up.value])
  {
    SessionsAfter(s, a);
    RestAfter(s, a);
    hide Do, InTable, SocketsOk, RecordsOk, LogOk;
  }

  lemma LogAfter(s: State, a: Action)
    requires Can(s, a) && HandlerOk(s)
    ensures forall e :: e in Do(s, a).log ==>
              e in s.log || Routed(s, e) || (a.Reply? && a.ok && e == Down(a.id, s.sessions[a.id].client, s.now))
  {
    hide Without, Held;
  }

  lemma LogKeeps(s: State, a: Action)
    requires Inv(s) && Can(s, a)
    ensures LogOk(Do(s, a))
  {
    LogAfter(s, a);
    var t := Do(s, a);
    hide Do, Can;
    forall e | e in t.log
      ensures Routed(t, e)
    {
      if a.Reply? && a.ok && e == Down(a.id, s.sessions[a.id].client, s.now) {
        SessionsAfter(s, a);
      } else {
        assert Routed(s, e) && RecordOk(s, e.id, s.sessions[e.id]);
        SessionsStay(s, a, e.id);
      }
    }
  }

  lemma HandlerAfter(s: State, a: Action)
    requires Can(s, a)
    ensures Do(s, a).handler ==
            match a
            case Packet(c) => Received(c)
            case GetOrCreate(up) =>
              var c := s.handler.client;
              if c in s.table then Chosen(s.table[c], c) else if up == None then Idle else Chosen(up.value, c)
            case Stamp => Stamped(s.handler.id, s.handler.client, s.now)
            case Send(ok) => if ok then Idle else HDropping(s.handler.client)
            case HDrop => HClosing
            case HClose => Idle
            case Stop => Stopped
            case _ => s.handler
  {
    hide Without, Held;
  }

  lemma HandlerKeeps(s: State, a: Action)
    requires Inv(s) && Can(s, a)
    ensures HandlerOk(Do(s, a))
  {
    if s.handler.Chosen? || s.handler.Stamped? {
      assert RecordOk(s, s.handler.id, s.sessions[s.handler.id]);
      SessionsStay(s, a, s.handler.id);
    }
    if a.GetOrCreate? && s.handler.client in s.table {
      TableHas(s, s.handler.client);
    }
    SessionsAfter(s, a);
    HandlerAfter(s, a);
    hide SocketsOk, RecordsOk, LogOk, ThreadsOk, Do;
  }

  lemma TableHas(s: State, c: Client)
    requires SocketsOk(Clients(s), s.table, s.closing, s.open) && c in s.table
    ensures s.table[c] in s.sessions && s.sessions[s.table[c]].client == c
  {
  }

  lemma PacketsThreadKeeps(s: State, a: Action)
    requires ThreadsOk(s) && Can(s, a)
    ensures Packets in Do(s, a).closing ==> Do(s, a).handler == HClosing
  {
    SocketsAfter(s, a);
    HandlerAfter(s, a);
    hide ReaderIs, IsWaiting, Without, Do;
  }

  lemma ReaderThreadsKeep(s: State, a: Action, id: SessionId)
    requires ThreadsOk(s) && Can(s, a) && ReaderOf(id) in Do(s, a).closing
    ensures ReaderIs(Do(s, a), id, Closing)
  {
    SocketsAfter(s, a);
    SessionsAfter(s, a);
    hide Do, Without;
  }

  lemma ActionKeeps(s: State, a: Action)
    requires Inv(s) && Can(s, a)
    ensures Inv(Do(s, a))
  {
    SocketsKeep(s, a);
    RecordsKeep(s, a);
    LogKeeps(s, a);
    HandlerKeeps(s, a);
    PacketsThreadKeeps(s, a);
    RestAfter(s, a);
    forall t | t in Do(s, a).closing && t.ReaderOf?
      ensures ReaderIs(Do(s, a), t.id, Closing)
    {
      ReaderThreadsKeep(s, a, t.id);
    }
    hide Do, SocketsOk, RecordsOk, LogOk, HandlerOk, Can;
  }

  // ---------- what follows for every run ----------

  ghost predicate Reachable(timeout: int, s: State) {
    exists run :: CanAll(Init(timeout), run) && DoAll(Init(timeout), run) == s
  }

  lemma {:induction false} RunKeeps(s: State, run: seq<Action>)
    requires Inv(s) && CanAll(s, run)
    ensures Inv(DoAll(s, run)) && DoAll(s, run).timeout == s.timeout
    decreases |run|
  {
    if run != [] {
      ActionKeeps(s, run[0]);
      RestAfter(s, run[0]);
      hide Inv, Do, Can;
      RunKeeps(Do(s, run[0]), run[1..]);
    }
  }

  lemma ReachableInv(timeout: int, s: State)
    requires timeout > 0 && Reachable(timeout, s)
    ensures Inv(s) && s.timeout == timeout
  {
    var run :| CanAll(Init(timeout), run) && DoAll(Init(timeout), run) == s;
    RunKeeps(Init(timeout), run);
  }

  /**
   * A session evicted by its own reader's timeout has been idle longer than
   * the timeout, and none of its traffic is more recent. It has been idle at
   * most twice as long exactly when no empty reply came more than one timeout
   * after it was last seen: such a reply postpones the check and leaves lastSeen.
   */
  lemma EvictionBound(timeout: int, s: State, id: SessionId)
    requires timeout > 0 && Reachable(timeout, s) && Can(s, Timeout(id)) && Expired(s, id)
    ensures s.now - s.sessions[id].lastSeen > timeout
    ensures forall e :: e in s.log && e.id == id ==> s.now - e.at > timeout
    ensures s.now - s.sessions[id].lastSeen <= 2 * timeout
       <==> s.sessions[id].emptyAt - s.sessions[id].lastSeen <= timeout
  {
    ReachableInv(timeout, s);
    assert forall e :: e in s.log ==> Routed(s, e);
    assert RecordOk(s, id, s.sessions[id]);
  }

  /** The same for every session whose reader waits, at any time before its eviction. */
  lemma IdleBound(timeout: int, s: State, id: SessionId)
    requires timeout > 0 && Reachable(timeout, s) && IsWaiting(s, id) && id in s.open
    ensures s.sessions[id].emptyAt <= s.sessions[id].lastSeen ==> s.now - s.sessions[id].lastSeen <= 2 * timeout
    ensures s.sessions[id].emptyAt > s.sessions[id].lastSeen ==> s.now - s.sessions[id].emptyAt <= timeout
  {
    ReachableInv(timeout, s);
    assert RecordOk(s, id, s.sessions[id]);
  }

  /**
   * Every session in the table either has a reader that waits, and then it is
   * within that bound, or a reader on its way to drop it, or one that has
   * returned after a failed write to the client; the last has no timer left.
   */
  lemma TabledReader(timeout: int, s: State, id: SessionId)
    requires timeout > 0 && Reachable(timeout, s) && InTable(s, id)
    ensures id in s.open && id in s.sessions
    ensures var x := s.sessions[id];
            || (x.reader.Waiting? && s.now - (if x.emptyAt > x.lastSeen then x.emptyAt else x.lastSeen) <= 2 * timeout)
            || x.reader == Dropping
            || x.reader == Gone(true)
  {
    ReachableInv(timeout, s);
    assert RecordOk(s, id, s.sessions[id]);
  }

  lemma AbandonStep(s: State, a: Action, id: SessionId)
    requires Can(s, a)
    ensures ReaderIs(Do(s, a), id, Gone(true)) <==> ReaderIs(s, id, Gone(true)) || a == Reply(id, false)
  {
    SessionsAfter(s, a);
    hide Do;
  }

  /** A reader has returned in that way exactly when a write of a reply to its client has failed, ever. */
  lemma {:induction false} AbandonedIff(s: State, run: seq<Action>, id: SessionId)
    requires CanAll(s, run)
    ensures ReaderIs(DoAll(s, run), id, Gone(true)) <==> ReaderIs(s, id, Gone(true)) || Reply(id, false) in run
    decreases |run|
  {
    if run != [] {
      AbandonStep(s, run[0], id);
      assert run == [run[0]] + run[1..];
      hide Do, Can, ReaderIs;
      AbandonedIff(Do(s, run[0]), run[1..], id);
    }
  }

  /** A drop by the key of id's client, after a failed send or by a reader of that client, or Close's clearing. */
  predicate TakesOut(s: State, a: Action, id: SessionId)
    requires Can(s, a)
  {
    id in s.sessions &&
    (|| a == ClearTable
     || (a == HDrop && s.handler.client == s.sessions[id].client)
     || (a.Drop? && s.sessions[a.id].client == s.sessions[id].client))
  }

  /** Those actions, and no others, take a session out of the table. */
  lemma LeavesTableIff(s: State, a: Action, id: SessionId)
    requires Can(s, a) && InTable(s, id)
    ensures id in s.sessions
    ensures !InTable(Do(s, a), id) <==> TakesOut(s, a, id)
  {
    SocketsAfter(s, a);
    ClientsAfter(s, a);
    hide Do, Held, Unheld, IsWaiting;
  }

  lemma {:induction false} RunAppend(s: State, run: seq<Action>, a: Action)
    requires CanAll(s, run) && Can(DoAll(s, run), a)
    ensures CanAll(s, run + [a]) && DoAll(s, run + [a]) == Do(DoAll(s, run), a)
    decreases |run|
  {
    if run == [] {
      assert run + [a] == [a];
    } else {
      assert (run + [a])[1..] == run[1..] + [a];
      RunAppend(Do(s, run[0]), run[1..], a);
    }
  }

  lemma Start(timeout: int) returns (s: State)
    ensures s == Init(timeout) && Reachable(timeout, s)
  {
    s := Init(timeout);
    assert CanAll(s, []) && DoAll(s, []) == s;
  }

  lemma Next(timeout: int, s: State, a: Action) returns (t: State)
    requires Reachable(timeout, s) && Can(s, a)
    ensures Reachable(timeout, t) && t == Do(s, a)
  {
    var run :| CanAll(Init(timeout), run) && DoAll(Init(timeout), run) == s;
    RunAppend(Init(timeout), run, a);
    t := Do(s, a);
  }

  /** A client's packet creates session id. */
  lemma FirstPacket(timeout: int, s: State, client: Client, id: SessionId) returns (t: State)
    requires Reachable(timeout, s) && s.handler == Idle && !s.stopping
    requires client !in s.table && id !in s.sessions
    ensures Reachable(timeout, t)
    ensures t == s.(sessions := s.sessions[id := Session(client, s.now, Waiting(s.now + s.timeout), s.cleared, s.now)],
                    table := s.table[client := id], open := s.open + {id}, handler := Stamped(id, client, s.now))
  {
    t := Next(timeout, s, Packet(client));
    t := Next(timeout, t, GetOrCreate(Some(id)));
    t := Next(timeout, t, Stamp);
    assert t.sessions == s.sessions[id := Session(client, s.now, Waiting(s.now + s.timeout), s.cleared, s.now)];
  }

  /** The upper bound is met: a client that sends one packet keeps its session for exactly twice the timeout. */
  lemma IdleSessionLivesTwice(timeout: int, client: Client) returns (s: State)
    requires timeout > 0
    ensures Reachable(timeout, s) && Can(s, Timeout(0)) && Expired(s, 0)
    ensures s.now - s.sessions[0].lastSeen == 2 * timeout
  {
    s := Start(timeout);
    s := FirstPacket(timeout, s, client, 0);
    s := Next(timeout, s, Tick(timeout));
    s := Next(timeout, s, Timeout(0));
    s := Next(timeout, s, Tick(timeout));
  }

  /** With empty replies there is no bound: one every timeout keeps a session that nothing else touches. */
  lemma {:induction false} EmptyRepliesKeepSession(timeout: int, client: Client, k: nat) returns (s: State)
    requires timeout > 0
    ensures Reachable(timeout, s) && IsWaiting(s, 0) && 0 in s.open && s.timeout == timeout
    ensures s.sessions[0].reader.deadline == s.now + timeout && s.sessions.Keys == {0}
    ensures s.now - s.sessions[0].lastSeen == k * timeout
  {
    if k == 0 {
      s := Start(timeout);
      s := FirstPacket(timeout, s, client, 0);
    } else {
      s := EmptyRepliesKeepSession(timeout, client, k - 1);
      s := Next(timeout, s, Tick(timeout));
      s := Next(timeout, s, EmptyReply(0));
    }
  }

  /**
   * And a failed write to the client ends expiry: for every d a session can be
   * in the table, its socket open and nothing dropping it, d after it was last
   * seen. The client's next packet is given that session again.
   */
  lemma AbandonedSessionStays(timeout: int, client: Client, d: nat) returns (s: State)
    requires timeout > 0
    ensures Reachable(timeout, s) && s.table == map[client := 0] && s.open == {0} && s.closing == map[]
    ensures s.sessions.Keys == {0} && s.sessions[0].reader == Gone(true)
    ensures s.sessions[0].emptyAt <= s.sessions[0].lastSeen && s.now - s.sessions[0].lastSeen == d
    ensures Can(s, Packet(client)) && Can(Do(s, Packet(client)), GetOrCreate(None))
    ensures Do(Do(s, Packet(client)), GetOrCreate(None)).handler == Chosen(0, client)
  {
    s := Start(timeout);
    s := FirstPacket(timeout, s, client, 0);
    s := Next(timeout, s, Send(true));
    s := Next(timeout, s, Reply(0, false));
    assert s.sessions == map[0 := Session(client, 0, Gone(true), false, 0)] && s.open == {0};
    s := Next(timeout, s, Tick(d));
  }

  /**
   * Whatever has gone in or out of an upstream socket belongs to one client,
   * the one its session was created for, for its whole life.
   */
  lemma SocketServesOneClient(timeout: int, s: State, e: Traffic, f: Traffic)
    requires timeout > 0 && Reachable(timeout, s) && e in s.log && f in s.log && e.id == f.id
    ensures e.id in s.sessions && e.client == f.client == s.sessions[e.id].client
  {
    ReachableInv(timeout, s);
    assert Routed(s, e) && Routed(s, f);
  }

  // ---------- the traffic is there ----------

  /** A datagram passed on for a client, or from a session's socket to its client, and when it came. */
  datatype Item = UpFor(client: Client, at: int) | DownOn(id: SessionId, at: int)

  function Items(log: seq<Traffic>): seq<Item> {
    seq(|log|, i requires 0 <= i < |log| =>
      match log[i]
      case Up(_, client, at) => UpFor(client, at)
      case Down(id, _, at) => DownOn(id, at))
  }

  /**
   * What a run passes on, read off its actions: every packet whose send
   * succeeds, for the client it came from, and every reply that is written,
   * in order. cur is the client of the last packet, at when it was stamped.
   */
  function Expected(run: seq<Action>, cur: Client, now: int, at: int): seq<Item> {
    if run == [] then []
    else
      match run[0]
      case Tick(d) => Expected(run[1..], cur, now + d, at)
      case Packet(client) => Expected(run[1..], client, now, at)
      case Stamp => Expected(run[1..], cur, now, now)
      case Send(ok) => (if ok then [UpFor(cur, at)] else []) + Expected(run[1..], cur, now, at)
      case Reply(id, ok) => (if ok then [DownOn(id, now)] else []) + Expected(run[1..], cur, now, at)
      case _ => Expected(run[1..], cur, now, at)
  }

  predicate Handling(s: State, cur: Client, at: int) {
    && (s.handler.Received? || s.handler.Chosen? || s.handler.Stamped? ==> s.handler.client == cur)
    && (s.handler.Stamped? ==> s.handler.at == at)
  }

  lemma LogStep(s: State, a: Action)
    requires Can(s, a)
    ensures Do(s, a).log == s.log +
            match a
            case Send(ok) => if ok then [Up(s.handler.id, s.handler.client, s.handler.at)] else []
            case Reply(id, ok) => if ok then [Down(id, s.sessions[id].client, s.now)] else []
            case _ => []
  {
    hide Without, Held, Expired;
  }

  lemma ItemsAppend(log: seq<Traffic>, more: seq<Traffic>)
    ensures Items(log + more) == Items(log) + Items(more)
  {
  }

  lemma HandlingStep(s: State, a: Action, cur: Client, at: int)
    requires Can(s, a) && Handling(s, cur, at)
    ensures Handling(Do(s, a), if a.Packet? then a.client else cur, if a == Stamp then s.now else at)
  {
    HandlerAfter(s, a);
    hide Do, ReaderIs, IsWaiting;
  }

  lemma ItemsStep(s: State, a: Action, cur: Client, at: int)
    requires Can(s, a) && Handling(s, cur, at)
    ensures Items(Do(s, a).log) == Items(s.log) + Expected([a], cur, s.now, at)
  {
    LogStep(s, a);
    hide Do, Items, ReaderIs, IsWaiting;
    assert [a][1..] == [];
    match a
    case Send(ok) =>
      ItemsAppend(s.log, if ok then [Up(s.handler.id, s.handler.client, s.handler.at)] else []);
      OneItem(Up(s.handler.id, s.handler.client, s.handler.at));
    case Reply(id, ok) =>
      ItemsAppend(s.log, if ok then [Down(id, s.sessions[id].client, s.now)] else []);
      OneItem(Down(id, s.sessions[id].client, s.now));
    case _ =>
      ItemsAppend(s.log, []);
      OneItem(Up(0, "", 0));
  }

  lemma OneItem(e: Traffic)
    ensures Items([e]) == [match e case Up(_, client, at) => UpFor(client, at) case Down(id, _, at) => DownOn(id, at)]
    ensures Items([]) == []
  {
  }

  lemma ExpectedHead(a: Action, rest: seq<Action>, cur: Client, now: int, at: int)
    ensures Expected([a] + rest, cur, now, at)
         == Expected([a], cur, now, at)
            + Expected(rest, if a.Packet? then a.client else cur, if a.Tick? then now + a.d else now, if a == Stamp then now else at)
  {
    assert ([a] + rest)[1..] == rest && [a][1..] == [];
  }

  lemma {:induction false} LogIsExpected(s: State, run: seq<Action>, cur: Client, at: int)
    requires CanAll(s, run) && Handling(s, cur, at)
    ensures Items(DoAll(s, run).log) == Items(s.log) + Expected(run, cur, s.now, at)
    decreases |run|
  {
    if run != [] {
      var a := run[0];
      assert run == [a] + run[1..];
      ItemsStep(s, a, cur, at);
      HandlingStep(s, a, cur, at);
      RestAfter(s, a);
      ExpectedHead(a, run[1..], cur, s.now, at);
      hide Do, Can, Items, Expected, Handling;
      LogIsExpected(Do(s, a), run[1..], if a.Packet? then a.client else cur, if a == Stamp then s.now else at);
    }
  }

  /**
   * In every run what has passed through the upstream sockets is, in order and
   * with its time, exactly the packets whose sends succeeded, each for the
   * client it came from, and the replies that were written, each to the client
   * of its session.
   */
  lemma TrafficIsComplete(timeout: int, run: seq<Action>)
    requires timeout > 0 && CanAll(Init(timeout), run)
    ensures var s := DoAll(Init(timeout), run);
            && Items(s.log) == Expected(run, "", 0, 0)
            && forall e :: e in s.log ==> e.id in s.sessions && s.sessions[e.id].client == e.client
  {
    var s := DoAll(Init(timeout), run);
    LogIsExpected(Init(timeout), run, "", 0);
    assert Items([]) == [];
    RunKeeps(Init(timeout), run);
    assert forall e :: e in s.log ==> Routed(s, e);
  }

  /** When the reader of session id last set its deadline: at creation, after a reply, or when it timed out too early. */
  function TimerSet(run: seq<Action>, id: SessionId, now: int, at: int): int {
    if run == [] then at
    else
      var a := run[0];
      TimerSet(run[1..], id, if a.Tick? then now + a.d else now,
               if a in {GetOrCreate(Some(id)), Reply(id, true), EmptyReply(id), Timeout(id)} then now else at)
  }

  predicate TimerIs(s: State, id: SessionId, at: int) {
    IsWaiting(s, id) ==> s.sessions[id].reader.deadline == at + s.timeout
  }

  lemma TimerStep(s: State, a: Action, id: SessionId, at: int)
    requires Can(s, a) && TimerIs(s, id, at)
    ensures TimerIs(Do(s, a), id,
                    if a in {GetOrCreate(Some(id)), Reply(id, true), EmptyReply(id), Timeout(id)} then s.now else at)
  {
    SessionsAfter(s, a);
    RestAfter(s, a);
    hide Do, ReaderIs;
  }

  /** A reader that waits does so until exactly one timeout after it last set its deadline. */
  lemma {:induction false} DeadlineIsTimer(s: State, run: seq<Action>, id: SessionId, at: int)
    requires CanAll(s, run) && TimerIs(s, id, at)
    ensures TimerIs(DoAll(s, run), id, TimerSet(run, id, s.now, at))
    decreases |run|
  {
    if run != [] {
      var a := run[0];
      TimerStep(s, a, id, at);
      RestAfter(s, a);
      hide Do, Can, TimerIs;
      DeadlineIsTimer(Do(s, a), run[1..], id,
                      if a in {GetOrCreate(Some(id)), Reply(id, true), EmptyReply(id), Timeout(id)} then s.now else at);
    }
  }

  /**
   * No orphan sockets: an open socket is in the table under its own client, or
   * one dropSession has removed it and is about to close it; never both. A
   * session in the table is open.
   */
  lemma NoOrphanSockets(timeout: int, s: State, id: SessionId)
    requires timeout > 0 && Reachable(timeout, s)
    ensures id in s.open <==> InTable(s, id) || BeingClosed(s.closing, id)
    ensures !(InTable(s, id) && BeingClosed(s.closing, id))
    ensures forall c :: c in s.table ==> s.table[c] in s.open && InTable(s, s.table[c])
  {
    ReachableInv(timeout, s);
  }

  /**
   * dropSession goes by key. A reader's drop removes its own session exactly
   * when that is still in the table, and otherwise its client's current one.
   */
  lemma DropRemoves(timeout: int, s: State, reader: SessionId, id: SessionId)
    requires timeout > 0 && Reachable(timeout, s) && Can(s, Drop(reader)) && InTable(s, id)
    ensures !InTable(Do(s, Drop(reader)), id) <==> s.sessions[id].client == s.sessions[reader].client
    ensures InTable(s, reader) && !InTable(Do(s, Drop(reader)), id) ==> id == reader
  {
    ReachableInv(timeout, s);
    SocketsAfter(s, Drop(reader));
    ClientsAfter(s, Drop(reader));
  }

  /** So the reader of a dead session can evict its live successor, just stamped by a packet. */
  lemma StaleReaderEvictsSuccessor(timeout: int, client: Client) returns (s: State)
    requires timeout > 0
    ensures Reachable(timeout, s) && Can(s, Drop(0)) && !InTable(s, 0)
    ensures InTable(s, 1) && 1 in s.open && IsWaiting(s, 1) && s.sessions[1].lastSeen == s.now
    ensures !InTable(Do(s, Drop(0)), 1)
  {
    s := Start(timeout);
    s := FirstPacket(timeout, s, client, 0);
    s := Next(timeout, s, Send(false));
    s := Next(timeout, s, HDrop);
    s := Next(timeout, s, HClose);
    s := FirstPacket(timeout, s, client, 1);
    s := Next(timeout, s, ReadError(0));
  }

  /** Close returns: the table was emptied, and the packet loop and every reader have finished. */
  predicate CloseReturned(s: State) {
    s.cleared && s.handler == Stopped && forall id :: id in s.sessions ==> s.sessions[id].reader.Gone?
  }

  lemma NothingClosing(s: State)
    requires ThreadsOk(s) && CloseReturned(s)
    ensures s.closing == map[]
  {
    forall t
      ensures t !in s.closing
    {
      match t
      case Packets =>
      case ReaderOf(id) => assert id in s.sessions ==> s.sessions[id].reader.Gone?;
    }
  }

  /**
   * What Close leaves open: exactly the sessions still in the table, and each of
   * those was created after Close emptied it, by a packet already being
   * handled, and lost its reader to a failed write to the client. If no session
   * was created that late, nothing is left open.
   */
  lemma CloseLeavesOpen(timeout: int, s: State, id: SessionId)
    requires timeout > 0 && Reachable(timeout, s) && CloseReturned(s)
    ensures id in s.open <==> InTable(s, id)
    ensures id in s.open ==> s.sessions[id].late && s.sessions[id].reader == Gone(true)
    ensures (forall x :: x in s.sessions ==> !s.sessions[x].late) ==> s.open == {}
  {
    ReachableInv(timeout, s);
    forall x
      ensures x in s.open <==> InTable(s, x)
      ensures x in s.open ==> s.sessions[x].late && s.sessions[x].reader == Gone(true)
    {
      NothingClosing(s);
      if InTable(s, x) {
        assert RecordOk(s, x, s.sessions[x]);
      }
    }
  }

  /** No action of the run takes the session out of the table. */
  predicate NeverTakenOut(s: State, run: seq<Action>, id: SessionId)
    requires CanAll(s, run)
    decreases |run|
  {
    run == [] || (!TakesOut(s, run[0], id) && NeverTakenOut(Do(s, run[0]), run[1..], id))
  }

  /** A session that exists is in the table at the end of a run if and only if it was at first and never taken out. */
  lemma {:induction false} StaysTabledIff(s: State, run: seq<Action>, id: SessionId)
    requires Inv(s) && CanAll(s, run) && id in s.sessions
    ensures InTable(DoAll(s, run), id) <==> InTable(s, id) && NeverTakenOut(s, run, id)
    decreases |run|
  {
    if run != [] {
      var a := run[0];
      assert RecordOk(s, id, s.sessions[id]);
      SessionsStay(s, a, id);
      TableShrinks(s, a, id);
      ActionKeeps(s, a);
      if InTable(s, id) {
        LeavesTableIff(s, a, id);
      }
      hide Inv, Do, Can, InTable, TakesOut;
      StaysTabledIff(Do(s, a), run[1..], id);
    }
  }

  /** Somewhere in the run session id is created after the table was emptied, and from there never taken out. */
  predicate LeftBehind(s: State, run: seq<Action>, id: SessionId)
    requires CanAll(s, run)
    decreases |run|
  {
    run != [] &&
    (|| (s.cleared && Creates(s, run[0]) && run[0].up == Some(id) && NeverTakenOut(Do(s, run[0]), run[1..], id))
     || LeftBehind(Do(s, run[0]), run[1..], id))
  }

  lemma {:induction false} StaysCleared(s: State, run: seq<Action>, id: SessionId)
    requires CanAll(s, run) && id in s.sessions
    requires DoAll(s, run).cleared && NeverTakenOut(s, run, id)
    ensures s.cleared
    decreases |run|
  {
    if run != [] {
      RestAfter(s, run[0]);
      SessionsAfter(s, run[0]);
      hide Do, Can, Creates, Touched, Rewritten;
      StaysCleared(Do(s, run[0]), run[1..], id);
    }
  }

  lemma {:induction false} ExistsSinceCreated(s: State, run: seq<Action>, id: SessionId)
    requires CanAll(s, run) && id in s.sessions
    ensures !LeftBehind(s, run, id)
    decreases |run|
  {
    if run != [] {
      SessionsAfter(s, run[0]);
      assert Creates(s, run[0]) ==> run[0].up != Some(id);
      hide Do, Can, Creates, Touched, Rewritten, NeverTakenOut;
      ExistsSinceCreated(Do(s, run[0]), run[1..], id);
    }
  }

  lemma CreatedIsTabled(s: State, a: Action, id: SessionId)
    requires Can(s, a) && id !in s.sessions
    ensures id in Do(s, a).sessions <==> Creates(s, a) && a.up == Some(id)
    ensures id in Do(s, a).sessions ==> InTable(Do(s, a), id)
    ensures !InTable(s, id)
  {
    SessionsAfter(s, a);
    SocketsAfter(s, a);
    ClientsAfter(s, a);
    hide Do, Held, Unheld;
  }

  /** In a run past the clearing, a session that did not exist at first is in the table at the end if and only if it was left behind. */
  lemma {:induction false} TabledIffLeftBehind(s: State, run: seq<Action>, id: SessionId)
    requires Inv(s) && CanAll(s, run) && id !in s.sessions && DoAll(s, run).cleared
    ensures InTable(DoAll(s, run), id) <==> LeftBehind(s, run, id)
    decreases |run|
  {
    if run == [] {
      NewId(s, id);
    } else {
      var a, t := run[0], Do(s, run[0]);
      ActionKeeps(s, a);
      CreatedIsTabled(s, a, id);
      RestAfter(s, a);
      assert Creates(s, a) ==> t.cleared == s.cleared;
      hide Inv, Do, Can, InTable, Creates, Frame;
      if id in t.sessions {
        StaysTabledIff(t, run[1..], id);
        ExistsSinceCreated(t, run[1..], id);
        if NeverTakenOut(t, run[1..], id) {
          StaysCleared(t, run[1..], id);
        }
      } else {
        TabledIffLeftBehind(t, run[1..], id);
      }
    }
  }

  /**
   * Exactly when Close leaves a socket open: its session was created after the
   * table was emptied, and after that dropped neither by a failed send for its
   * client nor by a reader of its client. So Close stops all sessions if and
   * only if every session created that late was dropped again.
   */
  lemma CloseLeavesOpenIff(timeout: int, run: seq<Action>)
    requires timeout > 0 && CanAll(Init(timeout), run) && CloseReturned(DoAll(Init(timeout), run))
    ensures forall id :: id in DoAll(Init(timeout), run).open <==> LeftBehind(Init(timeout), run, id)
    ensures DoAll(Init(timeout), run).open == {} <==> forall id :: !LeftBehind(Init(timeout), run, id)
  {
    var s := DoAll(Init(timeout), run);
    assert Reachable(timeout, s);
    forall id
      ensures id in s.open <==> LeftBehind(Init(timeout), run, id)
    {
      CloseLeavesOpen(timeout, s, id);
      TabledIffLeftBehind(Init(timeout), run, id);
    }
  }

  /** Only a packet that was being handled when Close began can create a session late, so there is at most one. */
  ghost predicate LateIsAlone(s: State) {
    && (s.cleared ==> s.stopping)
    && (forall x :: x in s.sessions && s.sessions[x].late ==> s.stopping && !s.handler.Received?)
    && (forall x, y :: x in s.sessions && y in s.sessions && s.sessions[x].late && s.sessions[y].late ==> x == y)
  }

  lemma StoppingAfter(s: State, a: Action)
    requires Can(s, a)
    ensures Do(s, a).stopping == (s.stopping || a == BeginClose)
  {
    hide IsWaiting, ReaderIs, Without, Held, Expired, WithReader, Seen, Unheld;
  }

  lemma LateStaysAlone(s: State, a: Action)
    requires Can(s, a) && LateIsAlone(s)
    ensures LateIsAlone(Do(s, a))
  {
    SessionsAfter(s, a);
    HandlerAfter(s, a);
    StoppingAfter(s, a);
    RestAfter(s, a);
    hide Do, IsWaiting, ReaderIs;
  }

  lemma {:induction false} LateIsAloneInRuns(s: State, run: seq<Action>)
    requires CanAll(s, run) && LateIsAlone(s)
    ensures LateIsAlone(DoAll(s, run))
    decreases |run|
  {
    if run != [] {
      LateStaysAlone(s, run[0]);
      hide Do, Can, LateIsAlone;
      LateIsAloneInRuns(Do(s, run[0]), run[1..]);
    }
  }

  /** Close leaves at most one socket open. */
  lemma CloseLeavesAtMostOne(timeout: int, run: seq<Action>, x: SessionId, y: SessionId)
    requires timeout > 0 && CanAll(Init(timeout), run) && CloseReturned(DoAll(Init(timeout), run))
    requires x in DoAll(Init(timeout), run).open && y in DoAll(Init(timeout), run).open
    ensures x == y
  {
    var s := DoAll(Init(timeout), run);
    assert Reachable(timeout, s);
    LateIsAloneInRuns(Init(timeout), run);
    CloseLeavesOpen(timeout, s, x);
    CloseLeavesOpen(timeout, s, y);
    RunKeeps(Init(timeout), run);
  }

  /** And that does happen: Close can return with a socket open and in the table. */
  lemma CloseCanLeak(timeout: int, client: Client) returns (s: State)
    requires timeout > 0
    ensures Reachable(timeout, s) && CloseReturned(s) && s.open == {0}
  {
    s := Start(timeout);
    s := Next(timeout, s, Packet(client));
    s := Next(timeout, s, BeginClose);
    s := Next(timeout, s, ClearTable);
    s := Next(timeout, s, GetOrCreate(Some(0)));
    assert s.sessions == map[0 := Session(client, 0, Waiting(timeout), true, 0)] && s.open == {0};
    s := Next(timeout, s, Stamp);
    s := Next(timeout, s, Send(true));
    s := Next(timeout, s, Reply(0, false));
    s := Next(timeout, s, Stop);
  }

  // ---------- the code ----------

  /** Uninterrupted, a reader's two dropSession actions. */
  function Dropped(s: State, id: SessionId): State
    requires ThreadsOk(s) && Can(s, Drop(id))
  {
    DropCanClose(s, id);
    Do(Do(s, Drop(id)), CloseDropped(id))
  }

  lemma DropCanClose(s: State, id: SessionId)
    requires Can(s, Drop(id))
    ensures Can(Do(s, Drop(id)), CloseDropped(id))
  {
    SessionsAfter(s, Drop(id));
  }

  lemma DropIsTwoActions(s: State, id: SessionId)
    requires ThreadsOk(s) && Can(s, Drop(id))
    ensures var t, c := Dropped(s, id), s.sessions[id].client;
            && t.table == Without(s.table, c)
            && t.open == s.open - (if c in s.table then {s.table[c]} else {})
            && t.closing == s.closing
  {
    SocketsAfter(s, Drop(id));
    SessionsAfter(s, Drop(id));
    var c, r := s.sessions[id].client, ReaderOf(id);
    assert r !in s.closing;
    hide Do, ThreadsOk;
    var t := Do(s, Drop(id));
    SocketsAfter(t, CloseDropped(id));
    hide Can;
    assert c in s.table ==> s.closing[r := s.table[c]] - {r} == s.closing;
  }

  /**
   * The table and its sockets, as getOrCreate, dropSession and Close change
   * them. Run where the machine stands, each ends where its actions end.
   */
  class SessionTable {
    var sessions: map<Client, SessionId>
    var open: set<SessionId>

    ghost predicate Is(s: State)
      reads this
    {
      sessions == s.table && open == s.open
    }

    constructor ()
      ensures forall timeout :: Is(Init(timeout))
    {
      sessions := map[];
      open := {};
    }

    method GetOrCreate(client: Client, up: Option<SessionId>) returns (id: Option<SessionId>)
      modifies this
      ensures id == if client in old(sessions) then Some(old(sessions)[client]) else up
      ensures sessions == if id == None then old(sessions) else old(sessions)[client := id.value]
      ensures open == if client in old(sessions) || up == None then old(open) else old(open) + {up.value}
      ensures forall s :: old(Is(s)) && Can(s, Action.GetOrCreate(up)) && s.handler.client == client ==>
                && Is(Do(s, Action.GetOrCreate(up)))
                && Do(s, Action.GetOrCreate(up)).handler == if id == None then Idle else Chosen(id.value, client)
    {
      if client in sessions {
        assert sessions == sessions[client := sessions[client]];
        return Some(sessions[client]);
      }
      if up == None {
        return None;
      }
      sessions := sessions[client := up.value];
      open := open + {up.value};
      return up;
    }

    method DropSession(client: Client)
      modifies this
      ensures sessions == Without(old(sessions), client)
      ensures open == old(open) - (if client in old(sessions) then {old(sessions)[client]} else {})
      ensures forall s, id :: old(Is(s)) && ThreadsOk(s) && Can(s, Drop(id)) && s.sessions[id].client == client ==>
                Is(Dropped(s, id))
    {
      if client in sessions {
        var id := sessions[client];
        sessions := sessions - {client};
        open := open - {id};
      }
      forall s, id | old(Is(s)) && ThreadsOk(s) && Can(s, Drop(id)) && s.sessions[id].client == client
        ensures Is(Dropped(s, id))
      {
        DropIsTwoActions(s, id);
      }
    }

    method Close()
      modifies this
      ensures sessions == map[] && open == old(open) - old(sessions).Values
      ensures forall s :: old(Is(s)) && Can(s, ClearTable) ==> Is(Do(s, ClearTable))
    {
      var left := sessions.Keys;
      while left != {}
        invariant sessions == old(sessions) && left <= sessions.Keys
        invariant forall c :: c in sessions.Keys - left ==> sessions[c] !in open
        invariant open <= old(open)
        invariant forall id :: id in old(open) && id !in open ==> id in sessions.Values
        decreases left
      {
        var c :| c in left;
        open := open - {sessions[c]};
        left := left - {c};
      }
      sessions := map[];
    }
  }
}
