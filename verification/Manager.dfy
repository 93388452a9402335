/**
 * The backend table and its persisted rows: internal/proxy/manager.go. The
 * store does not fail, except that AddBackend refuses a name some row has.
 * Whether a listener comes up is arbitrary. String normalisation, address and
 * id syntax are parameters.
 */
module Manager {
  import opened Common

  type Id = int

  /** model.Backend, without the timestamps. */
  datatype Backend = Backend(
    id: Id, name: string, listenPort: int, tcp: string, mode: string,
    udpEnabled: bool, udpPort: int, udpAddr: string, enabled: bool)

  /** What the manager calls and this model does not define. */
  datatype Syntax = Syntax(
    lower: string -> string,
    trim: string -> string,
    tcpAddrOk: string -> bool,          // whitelist, host:port form, non-empty host
    udpAddrOk: string -> bool,
    parseId: string -> Option<Id>)

  /** backends holds runtime records under lower-cased names; rows is the store. */
  datatype Tables = Tables(backends: map<string, Backend>, rows: map<Id, Backend>, nextId: Id)

  predicate PortInRange(port: int) {
    0 < port <= 65535
  }

  predicate PortFree(backends: map<string, Backend>, port: int) {
    forall k :: k in backends ==>
      backends[k].listenPort != port && !(backends[k].udpEnabled && backends[k].udpPort == port)
  }

  predicate ValidForwardMode(mode: string) {
    mode in {"raw", "bungee", "ppv2"}
  }

  predicate NameStored(rows: map<Id, Backend>, name: string) {
    exists id :: id in rows && rows[id].name == name
  }

  // ---------- what the operations do ----------

  function NewRecord(id: Id, name: string, port: int, tcp: string, udp: string, udpPort: int): Backend {
    if udp == "" then Backend(id, name, port, tcp, "raw", false, 0, "", true)
    else Backend(id, name, port, tcp, "raw", true, udpPort, udp, true)
  }

  /** Whether Add gets as far as the store: the name is trimmed. */
  predicate AddAccepted(x: Syntax, t: Tables, name: string, port: int, tcp: string, udp: string, udpPort: int) {
    && name != "" && PortInRange(port) && x.tcpAddrOk(tcp)
    && x.lower(name) !in t.backends && PortFree(t.backends, port)
    && (udp != "" ==> x.udpAddrOk(udp) && PortInRange(udpPort))
    && !NameStored(t.rows, name)
  }

  /** A failed start deletes the row again; its id is not reused. */
  function Added(x: Syntax, t: Tables, name: string, port: int, tcp: string, udp: string, udpPort: int, up: bool): Tables {
    if !AddAccepted(x, t, name, port, tcp, udp, udpPort) then t
    else
      var r := NewRecord(t.nextId, name, port, tcp, udp, udpPort);
      if up then Tables(t.backends[x.lower(name) := r], t.rows[r.id := r], t.nextId + 1)
      else t.(nextId := t.nextId + 1)
  }

  /** A record changed in the table and, if it has a row, in the store. */
  function Rewritten(t: Tables, key: string, r: Backend): Tables
    requires key in t.backends && r.id == t.backends[key].id
  {
    t.(backends := t.backends[key := r], rows := if r.id in t.rows then t.rows[r.id := r] else t.rows)
  }

  function ModeSet(x: Syntax, t: Tables, name: string, mode: string): Tables {
    var key := x.lower(name);
    if !ValidForwardMode(mode) || key !in t.backends then t
    else Rewritten(t, key, t.backends[key].(mode := mode))
  }

  function UdpAdded(x: Syntax, t: Tables, name: string, addr: string, port: int): Tables {
    var key := x.lower(name);
    if !x.udpAddrOk(addr) || !PortInRange(port) || key !in t.backends
       || t.backends[key].udpEnabled || !PortFree(t.backends, port) then t
    else Rewritten(t, key, t.backends[key].(udpEnabled := true, udpPort := port, udpAddr := addr))
  }

  function UdpRemoved(x: Syntax, t: Tables, name: string): Tables {
    var key := x.lower(name);
    if key !in t.backends || !t.backends[key].udpEnabled then t
    else Rewritten(t, key, t.backends[key].(udpEnabled := false, udpPort := 0, udpAddr := ""))
  }

  /** By name first; failing that by number, and then whatever record has that id. */
  predicate Resolves(x: Syntax, t: Tables, ref: string, key: string) {
    key in t.backends
    && (if x.lower(x.trim(ref)) in t.backends then key == x.lower(x.trim(ref))
        else x.parseId(ref).Some? && t.backends[key].id == x.parseId(ref).value)
  }

  /** The key removed is that of the reference, also when the record was found by number. */
  function Removed(x: Syntax, t: Tables, ref: string, key: string): Tables
    requires Resolves(x, t, ref, key)
  {
    t.(backends := t.backends - {x.lower(x.trim(ref))}, rows := t.rows - {t.backends[key].id})
  }

  // ---------- the invariant ----------

  /** Names are keys, ports are distinct, and what is in the table is what is stored. */
  ghost predicate Inv(x: Syntax, t: Tables) {
    && (forall k :: k in t.backends ==> k == x.lower(t.backends[k].name))
    && (forall k, l :: k in t.backends && l in t.backends && t.backends[k].listenPort == t.backends[l].listenPort ==> k == l)
    && (forall k :: k in t.backends ==> t.backends[k].id in t.rows && t.rows[t.backends[k].id] == t.backends[k])
    && (forall id :: id in t.rows ==> t.rows[id].id == id < t.nextId)
  }

  datatype Action =
    | Add(name: string, port: int, tcp: string, udp: string, udpPort: int, up: bool)
    | SetForwardMode(name: string, mode: string)
    | AddUDP(name: string, addr: string, port: int)
    | RemoveUDP(name: string)
    | RemoveByName(ref: string)

  function Do(x: Syntax, t: Tables, a: Action): Tables {
    match a
    case Add(name, port, tcp, udp, udpPort, up) => Added(x, t, x.trim(name), port, tcp, udp, udpPort, up)
    case SetForwardMode(name, mode) => ModeSet(x, t, name, mode)
    case AddUDP(name, addr, port) => UdpAdded(x, t, name, addr, port)
    case RemoveUDP(name) => UdpRemoved(x, t, name)
    case RemoveByName(ref) =>
      var key := x.lower(x.trim(ref));
      if key in t.backends then Removed(x, t, ref, key) else t
  }

  function DoAll(x: Syntax, t: Tables, run: seq<Action>): Tables
    decreases |run|
  {
    if run == [] then t else DoAll(x, Do(x, t, run[0]), run[1..])
  }

  lemma RewriteKeeps(x: Syntax, t: Tables, key: string, r: Backend)
    requires Inv(x, t) && key in t.backends
    requires r.id == t.backends[key].id && r.name == t.backends[key].name && r.listenPort == t.backends[key].listenPort
    ensures Inv(x, Rewritten(t, key, r))
  {
    var u := Rewritten(t, key, r);
    forall k | k in u.backends
      ensures u.backends[k].id in u.rows && u.rows[u.backends[k].id] == u.backends[k]
    {
      if t.backends[k].id == r.id {
        OneKeyPerId(x, t, k, key);
      }
    }
  }

  lemma OneKeyPerId(x: Syntax, t: Tables, k: string, l: string)
    requires Inv(x, t) && k in t.backends && l in t.backends && t.backends[k].id == t.backends[l].id
    ensures k == l
  {
    assert t.backends[k] == t.backends[l];
  }

  lemma RemoveKeeps(x: Syntax, t: Tables, ref: string)
    requires Inv(x, t) && x.lower(x.trim(ref)) in t.backends
    ensures Inv(x, Removed(x, t, ref, x.lower(x.trim(ref))))
  {
    var key := x.lower(x.trim(ref));
    forall k | k in t.backends && t.backends[k].id == t.backends[key].id
      ensures k == key
    {
      OneKeyPerId(x, t, k, key);
    }
  }

  lemma AddKeeps(x: Syntax, t: Tables, a: Action)
    requires Inv(x, t) && a.Add?
    ensures Inv(x, Do(x, t, a))
  {
  }

  lemma ActionKeeps(x: Syntax, t: Tables, a: Action)
    requires Inv(x, t)
    ensures Inv(x, Do(x, t, a))
  {
    match a
    case Add(_, _, _, _, _, _) => AddKeeps(x, t, a);
    case SetForwardMode(name, mode) =>
      var key := x.lower(name);
      if key in t.backends {
        RewriteKeeps(x, t, key, t.backends[key].(mode := mode));
      }
    case AddUDP(name, addr, port) =>
      var key := x.lower(name);
      if key in t.backends {
        RewriteKeeps(x, t, key, t.backends[key].(udpEnabled := true, udpPort := port, udpAddr := addr));
      }
    case RemoveUDP(name) =>
      var key := x.lower(name);
      if key in t.backends {
        RewriteKeeps(x, t, key, t.backends[key].(udpEnabled := false, udpPort := 0, udpAddr := ""));
      }
    case RemoveByName(ref) =>
      if x.lower(x.trim(ref)) in t.backends {
        RemoveKeeps(x, t, ref);
      }
    hide Inv, Do;
  }

  /** Over every sequence of operations, whichever listeners come up. */
  lemma {:induction false} RunKeeps(x: Syntax, t: Tables, run: seq<Action>)
    requires Inv(x, t)
    ensures Inv(x, DoAll(x, t, run))
    decreases |run|
  {
    if run != [] {
      ActionKeeps(x, t, run[0]);
      RunKeeps(x, Do(x, t, run[0]), run[1..]);
    }
  }

  // ---------- what each operation leaves ----------

  /** The record under key and its row become r; every other record and row stays. */
  predicate Becomes(t: Tables, u: Tables, key: string, r: Backend) {
    && key in u.backends && u.backends[key] == r
    && r.id in u.rows && u.rows[r.id] == r
    && u.backends - {key} == t.backends - {key}
    && u.rows - {r.id} == t.rows - {r.id}
  }

  lemma RewriteBecomes(x: Syntax, t: Tables, key: string, r: Backend)
    requires Inv(x, t) && key in t.backends && r.id == t.backends[key].id
    ensures Becomes(t, Rewritten(t, key, r), key, r) && Rewritten(t, key, r).nextId == t.nextId
  {
    var u := Rewritten(t, key, r);
    assert u.backends - {key} == t.backends - {key};
    assert u.rows - {r.id} == t.rows - {r.id};
  }

  /** SetForwardMode gives a known backend one of the three modes, and does nothing else. */
  lemma ModeIsSet(x: Syntax, t: Tables, name: string, mode: string)
    requires Inv(x, t)
    ensures var key, u := x.lower(name), Do(x, t, SetForwardMode(name, mode));
            if key in t.backends && (mode == "raw" || mode == "bungee" || mode == "ppv2") then
              && Becomes(t, u, key, t.backends[key].(mode := mode)) && u.backends[key].mode == mode
              && u.nextId == t.nextId
            else u == t
  {
    var key := x.lower(name);
    if key in t.backends {
      RewriteBecomes(x, t, key, t.backends[key].(mode := mode));
    }
    hide Becomes, Inv, Rewritten;
  }

  /** A port no backend of the table listens on, by TCP or by enabled UDP. */
  predicate Unused(t: Tables, port: int) {
    && (forall k :: k in t.backends ==> t.backends[k].listenPort != port)
    && (forall k :: k in t.backends && t.backends[k].udpEnabled ==> t.backends[k].udpPort != port)
  }

  /** AddUDP gives a known backend without UDP an unused port and an address, and does nothing else. */
  lemma UdpIsAdded(x: Syntax, t: Tables, name: string, addr: string, port: int)
    requires Inv(x, t)
    ensures var key, u := x.lower(name), Do(x, t, AddUDP(name, addr, port));
            if key in t.backends && !t.backends[key].udpEnabled && x.udpAddrOk(addr)
               && 1 <= port <= 65535 && Unused(t, port) then
              && Becomes(t, u, key, t.backends[key].(udpEnabled := true, udpPort := port, udpAddr := addr))
              && u.nextId == t.nextId
            else u == t
  {
    var key := x.lower(name);
    assert Unused(t, port) <==> PortFree(t.backends, port);
    if key in t.backends {
      RewriteBecomes(x, t, key, t.backends[key].(udpEnabled := true, udpPort := port, udpAddr := addr));
    }
    hide Becomes, Inv, Rewritten, Unused, PortFree;
  }

  /** RemoveUDP clears the UDP fields of a known backend that has them, and does nothing else. */
  lemma UdpIsRemoved(x: Syntax, t: Tables, name: string)
    requires Inv(x, t)
    ensures var key, u := x.lower(name), Do(x, t, RemoveUDP(name));
            if key in t.backends && t.backends[key].udpEnabled then
              && Becomes(t, u, key, t.backends[key].(udpEnabled := false, udpPort := 0, udpAddr := ""))
              && u.nextId == t.nextId
            else u == t
  {
    var key := x.lower(name);
    if key in t.backends {
      RewriteBecomes(x, t, key, t.backends[key].(udpEnabled := false, udpPort := 0, udpAddr := ""));
    }
    hide Becomes, Inv, Rewritten;
  }

  /** So it undoes an accepted AddUDP of a backend whose UDP fields were clear. */
  lemma RemoveUndoesAddUDP(x: Syntax, t: Tables, name: string, addr: string, port: int)
    requires Inv(x, t) && x.lower(name) in t.backends
    requires var b := t.backends[x.lower(name)]; !b.udpEnabled && b.udpPort == 0 && b.udpAddr == ""
    ensures Do(x, Do(x, t, AddUDP(name, addr, port)), RemoveUDP(name)) == t
  {
    var key := x.lower(name);
    var b := t.backends[key];
    var u := Do(x, t, AddUDP(name, addr, port));
    if u != t {
      var v := Do(x, u, RemoveUDP(name));
      assert v.backends[key] == b;
      assert v.backends == t.backends;
      assert v.rows == t.rows;
    }
  }

  /**
   * Add accepts exactly a new name, an unused TCP port in range, an address the
   * syntax and the whitelist allow, and, if there is UDP, an address and a port
   * in range for it. What it accepts and starts is a raw, enabled backend with a
   * fresh id, and every other record and row stays; otherwise both tables stay.
   */
  lemma BackendIsAdded(x: Syntax, t: Tables, name: string, port: int, tcp: string, udp: string, udpPort: int, up: bool)
    requires Inv(x, t)
    ensures var trimmed := x.trim(name);
            var key, u := x.lower(trimmed), Do(x, t, Add(name, port, tcp, udp, udpPort, up));
            if up && trimmed != "" && 1 <= port <= 65535 && x.tcpAddrOk(tcp) && Unused(t, port)
               && key !in t.backends && (forall id :: id in t.rows ==> t.rows[id].name != trimmed)
               && (udp == "" || (x.udpAddrOk(udp) && 1 <= udpPort <= 65535)) then
              && t.nextId !in t.rows
              && Becomes(t, u, key, Backend(t.nextId, trimmed, port, tcp, "raw", udp != "",
                                            if udp == "" then 0 else udpPort, udp, true))
            else u.backends == t.backends && u.rows == t.rows
  {
    var trimmed := x.trim(name);
    var key, u := x.lower(trimmed), Do(x, t, Add(name, port, tcp, udp, udpPort, up));
    assert Unused(t, port) <==> PortFree(t.backends, port);
    assert NameStored(t.rows, trimmed) <==> !forall id :: id in t.rows ==> t.rows[id].name != trimmed;
    if key in u.backends && key !in t.backends {
      assert u.backends - {key} == t.backends - {key};
      assert u.rows - {t.nextId} == t.rows - {t.nextId};
    }
    hide Unused, PortFree, NameStored;
  }

  /** Adding and then removing a backend leaves the tables as they were, but for the next id. */
  lemma RemoveUndoesAdd(x: Syntax, t: Tables, name: string, port: int, tcp: string, udp: string, udpPort: int, ref: string)
    requires Inv(x, t) && AddAccepted(x, t, x.trim(name), port, tcp, udp, udpPort)
    requires x.lower(x.trim(ref)) == x.lower(x.trim(name))
    ensures var a := Do(x, t, Add(name, port, tcp, udp, udpPort, true));
            Do(x, a, RemoveByName(ref)) == t.(nextId := t.nextId + 1)
  {
    var a := Do(x, t, Add(name, port, tcp, udp, udpPort, true));
    var u := Do(x, a, RemoveByName(ref));
    assert u.backends == t.backends;
    assert u.rows == t.rows;
  }

  /**
   * Removal by number leaves a record running whose row is gone, so a removal
   * that resolves keeps the invariant exactly when it was by name.
   */
  lemma RemoveKeepsIff(x: Syntax, t: Tables, ref: string, key: string)
    requires Inv(x, t) && Resolves(x, t, ref, key)
    ensures Inv(x, Removed(x, t, ref, key)) <==> x.lower(x.trim(ref)) in t.backends
  {
    var byName := x.lower(x.trim(ref));
    if byName in t.backends {
      RemoveKeeps(x, t, ref);
    } else {
      var u := Removed(x, t, ref, key);
      assert key in u.backends && u.backends[key].id !in u.rows;
    }
  }

  /** One backend, removed by its number: it stays in the table, and its row is gone. */
  lemma RemoveByNumberBreaks(x: Syntax, r: Backend, ref: string)
    requires x.parseId(ref) == Some(r.id) && x.lower(x.trim(ref)) != x.lower(r.name)
    ensures var t := Tables(map[x.lower(r.name) := r], map[r.id := r], r.id + 1);
            && Inv(x, t) && Resolves(x, t, ref, x.lower(r.name))
            && Removed(x, t, ref, x.lower(r.name)) == t.(rows := map[])
            && !Inv(x, Removed(x, t, ref, x.lower(r.name)))
  {
    var key := x.lower(r.name);
    var t := Tables(map[key := r], map[r.id := r], r.id + 1);
    var u := Removed(x, t, ref, key);
    assert u.backends == t.backends && u.rows == map[];
    assert key in u.backends;
  }

  ghost predicate UdpPortsDistinct(t: Tables) {
    forall k, l ::
      (&& k in t.backends && l in t.backends && t.backends[k].udpEnabled && t.backends[l].udpEnabled
       && t.backends[k].udpPort == t.backends[l].udpPort)
      ==> k == l
  }

  /**
   * Add checks its TCP port and not its UDP port. It keeps the UDP ports
   * distinct exactly when no backend already has the one it is given; AddUDP,
   * which does check, always does.
   */
  lemma UdpPortsStayDistinctIff(x: Syntax, t: Tables, a: Action)
    requires Inv(x, t) && UdpPortsDistinct(t)
    ensures a.Add? && a.up && a.udp != "" && AddAccepted(x, t, x.trim(a.name), a.port, a.tcp, a.udp, a.udpPort) ==>
              (UdpPortsDistinct(Do(x, t, a))
               <==> forall k :: k in t.backends && t.backends[k].udpEnabled ==> t.backends[k].udpPort != a.udpPort)
    ensures a.AddUDP? ==> UdpPortsDistinct(Do(x, t, a))
  {
    if a.Add? {
      var key, u := x.lower(x.trim(a.name)), Do(x, t, a);
      if k :| k in t.backends && t.backends[k].udpEnabled && t.backends[k].udpPort == a.udpPort {
        assert key in u.backends && k in u.backends ==> u.backends[k] == t.backends[k] || k == key;
      }
    }
  }

  /** Two backends added, both accepted, with one UDP port. */
  lemma UdpPortsCanCollide(x: Syntax, a: string, b: string, tcp: string, udp: string, udpPort: int)
    requires a != "" && b != "" && x.trim(a) == a && x.trim(b) == b && x.lower(a) != x.lower(b)
    requires x.tcpAddrOk(tcp) && udp != "" && x.udpAddrOk(udp) && 2 < udpPort <= 65535
    ensures var t := Do(x, Tables(map[], map[], 1), Add(a, 1, tcp, udp, udpPort, true));
            && Inv(x, t) && UdpPortsDistinct(t) && AddAccepted(x, t, b, 2, tcp, udp, udpPort)
            && !UdpPortsDistinct(Do(x, t, Add(b, 2, tcp, udp, udpPort, true)))
  {
    var t := Do(x, Tables(map[], map[], 1), Add(a, 1, tcp, udp, udpPort, true));
    var u := Do(x, t, Add(b, 2, tcp, udp, udpPort, true));
    assert t.backends == map[x.lower(a) := NewRecord(1, a, 1, tcp, udp, udpPort)];
    assert x.lower(a) in u.backends && x.lower(b) in u.backends;
  }

  // ---------- loading ----------

  /** Start over the rows in the order of GetBackends; up is which of them come up. */
  function Loaded(x: Syntax, rows: map<Id, Backend>, order: seq<Id>, up: set<Id>): map<string, Backend>
    requires forall i :: 0 <= i < |order| ==> order[i] in rows
  {
    if order == [] then map[]
    else
      var id := order[|order| - 1];
      var before := Loaded(x, rows, order[..|order| - 1], up);
      if rows[id].enabled && id in up then before[x.lower(rows[id].name) := rows[id]] else before
  }

  lemma {:induction false} LoadedFromRows(x: Syntax, rows: map<Id, Backend>, order: seq<Id>, up: set<Id>, k: string)
    requires forall i :: 0 <= i < |order| ==> order[i] in rows && rows[order[i]].id == order[i]
    requires k in Loaded(x, rows, order, up)
    ensures var r := Loaded(x, rows, order, up)[k];
            r.id in rows && r.id in up && rows[r.id] == r && k == x.lower(r.name) && r.enabled
  {
    var id := order[|order| - 1];
    if !(rows[id].enabled && id in up) || k != x.lower(rows[id].name) {
      LoadedFromRows(x, rows, order[..|order| - 1], up, k);
    }
  }

  /** Two listeners cannot both come up on one port. */
  predicate BindsAreExclusive(rows: map<Id, Backend>, up: set<Id>) {
    forall i, j :: i in up && j in up && i in rows && j in rows && rows[i].listenPort == rows[j].listenPort ==> i == j
  }

  /**
   * Whatever rows are stored, the table Start builds satisfies the invariant.
   * That is a statement of the table, not of all that runs: see StartedIsTabledIff.
   */
  lemma StartEstablishes(x: Syntax, rows: map<Id, Backend>, nextId: Id, order: seq<Id>, up: set<Id>)
    requires forall id :: id in rows ==> rows[id].id == id < nextId
    requires forall i :: 0 <= i < |order| ==> order[i] in rows
    requires BindsAreExclusive(rows, up)
    ensures Inv(x, Tables(Loaded(x, rows, order, up), rows, nextId))
  {
    var b := Loaded(x, rows, order, up);
    forall k | k in b
      ensures b[k].id in rows && b[k].id in up && rows[b[k].id] == b[k] && k == x.lower(b[k].name)
    {
      LoadedFromRows(x, rows, order, up, k);
    }
  }

  /** The row is enabled, and Start has brought its listeners up. */
  predicate Started(rows: map<Id, Backend>, order: seq<Id>, up: set<Id>, id: Id) {
    id in order && id in rows && rows[id].enabled && id in up
  }

  predicate InTable(x: Syntax, rows: map<Id, Backend>, order: seq<Id>, up: set<Id>, id: Id)
    requires forall i :: 0 <= i < |order| ==> order[i] in rows
    requires id in rows
  {
    var key, t := x.lower(rows[id].name), Loaded(x, rows, order, up);
    key in t && t[key] == rows[id]
  }

  /** Two started rows share a lower-cased name. */
  predicate Clash(x: Syntax, rows: map<Id, Backend>, order: seq<Id>, up: set<Id>, i: Id, j: Id) {
    Started(rows, order, up, i) && Started(rows, order, up, j) && x.lower(rows[i].name) == x.lower(rows[j].name)
  }

  /** A started row that shares its name with no other is in the table. */
  lemma {:induction false} AloneStays(x: Syntax, rows: map<Id, Backend>, order: seq<Id>, up: set<Id>, id: Id)
    requires forall i :: 0 <= i < |order| ==> order[i] in rows
    requires Started(rows, order, up, id)
    requires forall j :: Clash(x, rows, order, up, id, j) ==> j == id
    ensures InTable(x, rows, order, up, id)
  {
    var last, before := order[|order| - 1], order[..|order| - 1];
    assert order == before + [last];
    if last != id {
      assert forall j :: Clash(x, rows, before, up, id, j) ==> Clash(x, rows, order, up, id, j);
      AloneStays(x, rows, before, up, id);
      assert last in order && !Clash(x, rows, order, up, id, last);
    }
  }

  /** What the last row of the order does to an earlier one. */
  lemma LastRow(x: Syntax, rows: map<Id, Backend>, order: seq<Id>, up: set<Id>, id: Id)
    requires forall i :: 0 <= i < |order| ==> order[i] in rows && rows[order[i]].id == order[i]
    requires Started(rows, order, up, id) && order[|order| - 1] != id
    ensures var last, before := order[|order| - 1], order[..|order| - 1];
            && Started(rows, before, up, id)
            && (InTable(x, rows, order, up, id) <==>
                  InTable(x, rows, before, up, id) && !Clash(x, rows, order, up, id, last))
            && (forall j :: Clash(x, rows, order, up, id, j) <==>
                  Clash(x, rows, before, up, id, j) || (j == last && Clash(x, rows, order, up, id, last)))
  {
    var last, before := order[|order| - 1], order[..|order| - 1];
    assert order == before + [last];
    assert id in before;
  }

  /**
   * The rows come in the order of their ids, the newest last, so of the started
   * rows with one lower-cased name the newest is in the table, and no other.
   */
  lemma {:induction false} NewestIsTabledIff(x: Syntax, rows: map<Id, Backend>, order: seq<Id>, up: set<Id>, id: Id)
    requires forall i :: 0 <= i < |order| ==> order[i] in rows && rows[order[i]].id == order[i]
    requires forall i, j :: 0 <= i < j < |order| ==> order[i] < order[j]
    requires Started(rows, order, up, id)
    ensures InTable(x, rows, order, up, id) <==> forall j :: Clash(x, rows, order, up, id, j) ==> j <= id
  {
    var last, before := order[|order| - 1], order[..|order| - 1];
    assert order == before + [last];
    if last == id {
      assert InTable(x, rows, order, up, id);
    } else {
      LastRow(x, rows, order, up, id);
      hide Loaded, InTable, Clash;
      NewestIsTabledIff(x, rows, before, up, id);
    }
  }

  /**
   * Start writes the table by lower-cased name, so of two started rows whose
   * names differ only in case one is running and in no table: it cannot be
   * listed, removed or shut down. Every started backend is in the table if and
   * only if no two of them share a lower-cased name.
   */
  lemma StartedIsTabledIff(x: Syntax, rows: map<Id, Backend>, order: seq<Id>, up: set<Id>)
    requires forall id :: id in rows ==> rows[id].id == id
    requires forall i :: 0 <= i < |order| ==> order[i] in rows
    ensures (forall id :: Started(rows, order, up, id) ==> InTable(x, rows, order, up, id))
       <==> (forall i, j :: Clash(x, rows, order, up, i, j) ==> i == j)
  {
    if forall i, j :: Clash(x, rows, order, up, i, j) ==> i == j {
      forall id | Started(rows, order, up, id)
        ensures InTable(x, rows, order, up, id)
      {
        AloneStays(x, rows, order, up, id);
      }
    } else {
      var i, j :| Clash(x, rows, order, up, i, j) && i != j;
      hide Loaded;
      assert !(InTable(x, rows, order, up, i) && InTable(x, rows, order, up, j));
    }
  }

  /**
   * Such rows do arise. "Foo" fails to start at one boot, so "foo" on another
   * port is accepted; at the next boot both come up, the later one is in the
   * table, and the port of the other is reported free.
   */
  lemma StartedCanBeLost(x: Syntax, r: Backend, port: int)
    requires x.lower("Foo") == x.lower("foo") && x.trim("foo") == "foo" && x.tcpAddrOk(r.tcp)
    requires r.id == 1 && r.name == "Foo" && r.enabled && !r.udpEnabled
    requires PortInRange(port) && port != r.listenPort
    ensures var boot := Tables(Loaded(x, map[1 := r], [1], {}), map[1 := r], 2);
            var t := Do(x, boot, Add("foo", port, r.tcp, "", 0, true));
            && Inv(x, boot)
            && t.rows.Keys == {1, 2} && t.rows[1] == r
            && BindsAreExclusive(t.rows, {1, 2})
            && Started(t.rows, [1, 2], {1, 2}, 1)
            && Loaded(x, t.rows, [1, 2], {1, 2}) == map[x.lower("foo") := t.rows[2]]
            && PortFree(Loaded(x, t.rows, [1, 2], {1, 2}), r.listenPort)
  {
    var boot := Tables(Loaded(x, map[1 := r], [1], {}), map[1 := r], 2);
    var none: set<Id> := {};
    assert Loaded(x, map[1 := r], [1], none) == Loaded(x, map[1 := r], [1][..0], none) == map[];
    var t := Do(x, boot, Add("foo", port, r.tcp, "", 0, true));
    assert !NameStored(boot.rows, "foo");
    assert t.rows == map[1 := r, 2 := NewRecord(2, "foo", port, r.tcp, "", 0)];
    assert [1, 2][..1] == [1];
    assert Loaded(x, t.rows, [1], {1, 2}) == map[x.lower("Foo") := r];
  }

  // ---------- the code ----------

  class BackendManager {
    const x: Syntax
    var backends: map<string, Backend>
    var rows: map<Id, Backend>
    var nextId: Id
    var locked: bool

    function State(): Tables
      reads this
    {
      Tables(backends, rows, nextId)
    }

    constructor (x: Syntax, rows: map<Id, Backend>, nextId: Id)
      ensures this.x == x && State() == Tables(map[], rows, nextId) && !locked
    {
      this.x := x;
      this.backends := map[];
      this.rows := rows;
      this.nextId := nextId;
      this.locked := false;
    }

    method Start(order: seq<Id>, up: set<Id>)
      requires !locked && backends == map[] && forall i :: 0 <= i < |order| ==> order[i] in rows
      modifies this`backends
      ensures State() == old(State()).(backends := Loaded(x, rows, order, up))
    {
      assert order[..0] == [];
      for i := 0 to |order|
        invariant rows == old(rows) && backends == Loaded(x, rows, order[..i], up)
      {
        assert order[..i + 1][..i] == order[..i];
        var b := rows[order[i]];
        if b.enabled && order[i] in up {
          backends := backends[x.lower(b.name) := b];
        }
      }
      assert order[..|order|] == order;
    }

    method PortFreeLocked(port: int) returns (free: bool)
      ensures free == PortFree(backends, port)
    {
      var left := backends.Keys;
      while left != {}
        invariant left <= backends.Keys
        invariant forall k :: k in backends && k !in left ==>
          backends[k].listenPort != port && !(backends[k].udpEnabled && backends[k].udpPort == port)
        decreases left
      {
        var k :| k in left;
        var b := backends[k];
        if b.listenPort == port || (b.udpEnabled && b.udpPort == port) {
          return false;
        }
        left := left - {k};
      }
      return true;
    }

    /** The store's INSERT: None when the name is taken. */
    method InsertRow(r: Backend) returns (id: Option<Id>)
      modifies this`rows, this`nextId
      ensures id == if NameStored(old(rows), r.name) then None else Some(old(nextId))
      ensures rows == if id == None then old(rows) else old(rows)[id.value := r.(id := id.value)]
      ensures nextId == if id == None then old(nextId) else old(nextId) + 1
    {
      if id' :| id' in rows && rows[id'].name == r.name {
        return None;
      }
      id := Some(nextId);
      rows := rows[nextId := r.(id := nextId)];
      nextId := nextId + 1;
    }

    method Add(rawName: string, port: int, tcp: string, udp: string, udpPort: int, up: bool) returns (ok: bool)
      requires !locked && nextId !in rows
      modifies this
      ensures !locked
      ensures State() == Do(x, old(State()), Action.Add(rawName, port, tcp, udp, udpPort, up))
      ensures ok <==> up && AddAccepted(x, old(State()), x.trim(rawName), port, tcp, udp, udpPort)
    {
      var name := x.trim(rawName);
      if name == "" || port <= 0 || port > 65535 || !x.tcpAddrOk(tcp) {
        return false;
      }
      if x.lower(name) in backends {
        return false;
      }
      var free := PortFreeLocked(port);
      if !free {
        return false;
      }
      var rec := Backend(0, name, port, tcp, "raw", false, 0, "", true);
      if udp != "" {
        if !x.udpAddrOk(udp) || udpPort <= 0 || udpPort > 65535 {
          return false;
        }
        rec := rec.(udpEnabled := true, udpPort := udpPort, udpAddr := udp);
      }
      var id := InsertRow(rec);
      if id == None {
        return false;
      }
      rec := rec.(id := id.value);
      if !up {
        rows := rows - {id.value};
        assert rows == old(rows);
        return false;
      }
      backends := backends[x.lower(name) := rec];
      return true;
    }

    method UpdateRow(r: Backend)
      modifies this`rows
      ensures rows == if r.id in old(rows) then old(rows)[r.id := r] else old(rows)
    {
      if r.id in rows {
        rows := rows[r.id := r];
      }
    }

    method SetForwardMode(name: string, mode: string) returns (ok: bool)
      requires !locked
      modifies this
      ensures !locked && State() == Do(x, old(State()), Action.SetForwardMode(name, mode))
      ensures ok <==> ValidForwardMode(mode) && x.lower(name) in old(backends)
    {
      var key := x.lower(name);
      if mode !in {"raw", "bungee", "ppv2"} || key !in backends {
        return false;
      }
      var r := backends[key].(mode := mode);
      UpdateRow(r);
      backends := backends[key := r];
      return true;
    }

    method AddUDP(name: string, addr: string, port: int)
      requires !locked
      modifies this
      ensures !locked && State() == Do(x, old(State()), Action.AddUDP(name, addr, port))
    {
      if !x.udpAddrOk(addr) || port <= 0 || port > 65535 {
        return;
      }
      var key := x.lower(name);
      if key !in backends || backends[key].udpEnabled {
        return;
      }
      var free := PortFreeLocked(port);
      if !free {
        return;
      }
      var r := backends[key].(udpEnabled := true, udpPort := port, udpAddr := addr);
      UpdateRow(r);
      backends := backends[key := r];
    }

    method RemoveUDP(name: string)
      requires !locked
      modifies this
      ensures !locked && State() == Do(x, old(State()), Action.RemoveUDP(name))
    {
      var key := x.lower(name);
      if key !in backends || !backends[key].udpEnabled {
        return;
      }
      var r := backends[key].(udpEnabled := false, udpPort := 0, udpAddr := "");
      backends := backends[key := r];
      UpdateRow(r);
    }

    /** A reference that resolves to nothing is reported with the mutex still held. */
    method Remove(ref: string) returns (found: Option<string>)
      requires !locked
      modifies this
      ensures found.Some? ==> Resolves(x, old(State()), ref, found.value)
                              && State() == Removed(x, old(State()), ref, found.value)
      ensures found == None ==> State() == old(State()) && forall k :: !Resolves(x, State(), ref, k)
      ensures locked <==> found == None
    {
      locked := true;
      var key := x.lower(x.trim(ref));
      if key in backends {
        found := Some(key);
      } else {
        found := None;
        var id := x.parseId(ref);
        if id.Some? {
          if k :| k in backends && backends[k].id == id.value {
            found := Some(k);
          }
        }
      }
      if found == None {
        return;
      }
      var rt := backends[found.value];
      backends := backends - {key};
      locked := false;
      rows := rows - {rt.id};
    }
  }
}
