/**
 * Traffic accounting: statsFlusher of internal/proxy/proxy.go and the
 * stats_hourly table of internal/storage/storage.go.
 */
module Stats {
  type BackendId = int

  /** The four summed columns of a stats_hourly row. */
  datatype Row = Row(tcp: int, udp: int, conns: int, packets: int)

  function Zero(): Row {
    Row(0, 0, 0, 0)
  }

  function Add(a: Row, b: Row): Row {
    Row(a.tcp + b.tcp, a.udp + b.udp, a.conns + b.conns, a.packets + b.packets)
  }

  datatype RowKey = RowKey(backend: BackendId, hour: int)
  type Rows = map<RowKey, Row>

  function Upserted(rows: Rows, k: RowKey, r: Row): Rows {
    rows[k := if k in rows then Add(rows[k], r) else r]
  }

  ghost function Sum(rows: Rows, keys: set<RowKey>): Row
    requires keys <= rows.Keys
  {
    if keys == {} then Zero()
    else
      var k :| k in keys;
      Add(rows[k], Sum(rows, keys - {k}))
  }

  function KeysOf(rows: Rows, id: BackendId): set<RowKey> {
    set k | k in rows && k.backend == id
  }

  /** The aggregate of one backend over all hours. */
  ghost function SumFor(rows: Rows, id: BackendId): Row {
    Sum(rows, KeysOf(rows, id))
  }

  lemma {:induction false} SumPick(rows: Rows, keys: set<RowKey>, k: RowKey)
    requires keys <= rows.Keys && k in keys
    ensures Sum(rows, keys) == Add(rows[k], Sum(rows, keys - {k}))
  {
    var r :| r in keys && Sum(rows, keys) == Add(rows[r], Sum(rows, keys - {r}));
    if r != k {
      SumPick(rows, keys - {r}, k);
      SumPick(rows, keys - {k}, r);
      assert keys - {r} - {k} == keys - {k} - {r};
      Swap(rows[r], rows[k], Sum(rows, keys - {k} - {r}));
    }
  }

  lemma Swap(a: Row, b: Row, c: Row)
    ensures Add(a, Add(b, c)) == Add(b, Add(a, c))
  {
  }

  lemma {:induction false} SumSame(a: Rows, b: Rows, keys: set<RowKey>)
    requires keys <= a.Keys && keys <= b.Keys && forall k :: k in keys ==> a[k] == b[k]
    ensures Sum(a, keys) == Sum(b, keys)
  {
    if keys != {} {
      var k :| k in keys;
      SumPick(a, keys, k);
      SumPick(b, keys, k);
      SumSame(a, b, keys - {k});
    }
  }

  /** An upsert adds its row to its own backend's aggregate, in whatever hour, and to no other's. */
  lemma UpsertAdds(rows: Rows, k: RowKey, r: Row, id: BackendId)
    ensures SumFor(Upserted(rows, k, r), id) == if k.backend == id then Add(SumFor(rows, id), r) else SumFor(rows, id)
  {
    var t := Upserted(rows, k, r);
    var before, after := KeysOf(rows, id), KeysOf(t, id);
    if k.backend == id {
      assert after == before + {k};
      SumPick(t, after, k);
      assert after - {k} == before - {k};
      SumSame(rows, t, before - {k});
      if k in rows {
        SumPick(rows, before, k);
      } else {
        assert before - {k} == before;
      }
    } else {
      assert after == before;
      SumSame(rows, t, before);
    }
  }

  /** No rows, no traffic. */
  lemma NothingSumsToZero(rows: Rows, id: BackendId)
    requires forall k :: k in rows ==> k.backend != id
    ensures SumFor(rows, id) == Row(0, 0, 0, 0)
  {
    assert KeysOf(rows, id) == {};
  }

  class Store {
    var rows: Rows

    constructor ()
      ensures rows == map[]
    {
      rows := map[];
    }

    /** On an error no row changes. */
    method RecordStat(k: RowKey, r: Row) returns (ok: bool)
      modifies this
      ensures rows == if ok then Upserted(old(rows), k, r) else old(rows)
    {
      ok := *;
      if ok {
        rows := rows[k := if k in rows then Add(rows[k], r) else r];
      }
    }

    method SumStats() returns (sums: map<BackendId, Row>)
      ensures forall id :: id in sums <==> KeysOf(rows, id) != {}
      ensures forall id :: id in sums ==> sums[id] == SumFor(rows, id)
    {
      sums := map[];
      var left := rows.Keys;
      while left != {}
        invariant left <= rows.Keys
        invariant forall id :: id in sums <==> KeysOf(rows, id) - left != {}
        invariant forall id :: id in sums ==> sums[id] == Sum(rows, KeysOf(rows, id) - left)
        decreases left
      {
        var k :| k in left;
        var done := left - {k};
        forall id
          ensures id == k.backend ==>
                    Sum(rows, KeysOf(rows, id) - done) == Add(rows[k], Sum(rows, KeysOf(rows, id) - left))
          ensures id != k.backend ==> KeysOf(rows, id) - done == KeysOf(rows, id) - left
          ensures id == k.backend ==> k in KeysOf(rows, id) - done
        {
          if id == k.backend {
            SumPick(rows, KeysOf(rows, id) - done, k);
            assert KeysOf(rows, id) - done - {k} == KeysOf(rows, id) - left;
          }
        }
        sums := sums[k.backend := if k.backend in sums then Add(rows[k], sums[k.backend]) else Add(rows[k], Zero())];
        left := done;
      }
      assert forall id :: KeysOf(rows, id) - left == KeysOf(rows, id);
    }
  }

  // ---------- the flusher ----------

  /** The cumulative counters of a backend. */
  datatype Counters = Counters(tcpIn: int, tcpOut: int, udpBytes: int, udpPkts: int, conns: int)

  function NoTraffic(): Counters {
    Counters(0, 0, 0, 0, 0)
  }

  /** Counters as a row: both TCP directions in one column. */
  function AsRow(c: Counters): Row {
    Row(c.tcpIn + c.tcpOut, c.udpBytes, c.conns, c.udpPkts)
  }

  function Minus(a: Counters, b: Counters): Counters {
    Counters(a.tcpIn - b.tcpIn, a.tcpOut - b.tcpOut, a.udpBytes - b.udpBytes, a.udpPkts - b.udpPkts, a.conns - b.conns)
  }

  /** One statsFlusher goroutine: the snapshot of its last flush, zero when it starts. */
  class Flusher {
    var last: Counters

    constructor ()
      ensures last == NoTraffic()
    {
      last := NoTraffic();
    }

    /** One tick. The error of RecordStat is ignored: the snapshot moves on. */
    method Flush(now: Counters, id: BackendId, hour: int, store: Store) returns (ok: bool)
      modifies this, store
      ensures last == now
      ensures store.rows == if now == old(last) || !ok then old(store.rows)
                            else Upserted(old(store.rows), RowKey(id, hour), AsRow(Minus(now, old(last))))
    {
      var d := Minus(now, last);
      if d.tcpIn == 0 && d.tcpOut == 0 && d.udpBytes == 0 && d.udpPkts == 0 && d.conns == 0 {
        return true;
      }
      ok := store.RecordStat(RowKey(id, hour), AsRow(d));
      last := now;
    }
  }

  // ---------- runs of one backend ----------

  /** Between flushes the counters grow; a restart starts a flusher anew and keeps the counters. */
  datatype Action =
    | Traffic(more: Counters)
    | Flush(hour: int, ok: bool)
    | Restart
    | OtherBackend(k: RowKey, r: Row)

  /** closed: the last snapshots of earlier flushers, added up. lost: what failed flushes carried. */
  datatype State = State(rows: Rows, now: Counters, last: Counters, closed: Row, lost: Row)

  predicate Can(a: Action, id: BackendId) {
    match a
    case Traffic(m) => m.tcpIn >= 0 && m.tcpOut >= 0 && m.udpBytes >= 0 && m.udpPkts >= 0 && m.conns >= 0
    case OtherBackend(k, _) => k.backend != id
    case _ => true
  }

  function Do(s: State, a: Action, id: BackendId): State {
    match a
    case Traffic(m) =>
      s.(now := Counters(s.now.tcpIn + m.tcpIn, s.now.tcpOut + m.tcpOut, s.now.udpBytes + m.udpBytes,
                         s.now.udpPkts + m.udpPkts, s.now.conns + m.conns))
    case Flush(hour, ok) =>
      var d := AsRow(Minus(s.now, s.last));
      s.(rows := if s.now == s.last || !ok then s.rows else Upserted(s.rows, RowKey(id, hour), d),
         last := s.now,
         lost := if ok then s.lost else Add(s.lost, d))
    case Restart => s.(last := NoTraffic(), closed := Add(s.closed, AsRow(s.last)))
    case OtherBackend(k, r) => s.(rows := Upserted(s.rows, k, r))
  }

  function DoAll(s: State, run: seq<Action>, id: BackendId): State
    decreases |run|
  {
    if run == [] then s else DoAll(Do(s, run[0], id), run[1..], id)
  }

  predicate Legal(run: seq<Action>, id: BackendId) {
    forall a :: a in run ==> Can(a, id)
  }

  predicate NonNegative(c: Counters) {
    c.tcpIn >= 0 && c.tcpOut >= 0 && c.udpBytes >= 0 && c.udpPkts >= 0 && c.conns >= 0
  }

  predicate Below(a: Counters, b: Counters) {
    NonNegative(Minus(b, a))
  }

  /** What the table gained since start, and what was lost, is what was snapshotted. */
  predicate Balanced(sum: Row, lost: Row, start: Row, closed: Row, last: Counters) {
    var l := AsRow(last);
    && sum.tcp + lost.tcp == start.tcp + closed.tcp + l.tcp
    && sum.udp + lost.udp == start.udp + closed.udp + l.udp
    && sum.conns + lost.conns == start.conns + closed.conns + l.conns
    && sum.packets + lost.packets == start.packets + closed.packets + l.packets
  }

  lemma BalancedAtFirst(sum: Row)
    ensures Balanced(sum, Zero(), sum, Zero(), NoTraffic())
  {
  }

  lemma BalancedAfterFlush(sum: Row, lost: Row, start: Row, closed: Row, last: Counters, now: Counters)
    requires Balanced(sum, lost, start, closed, last)
    ensures var d := AsRow(Minus(now, last));
            && Balanced(Add(sum, d), lost, start, closed, now)
            && Balanced(sum, Add(lost, d), start, closed, now)
            && Add(lost, AsRow(Minus(last, last))) == lost
  {
  }

  lemma BalancedAfterRestart(sum: Row, lost: Row, start: Row, closed: Row, last: Counters)
    requires Balanced(sum, lost, start, closed, last)
    ensures Balanced(sum, lost, start, Add(closed, AsRow(last)), NoTraffic())
  {
  }

  /** What a balance says when nothing was lost or closed, and when the snapshot is up to date. */
  lemma BalanceReads(sum: Row, lost: Row, start: Row, closed: Row, last: Counters)
    requires Balanced(sum, lost, start, closed, last)
    ensures sum == Add(start, AsRow(last)) <==> lost == closed
    ensures Add(sum, lost) == Add(Add(start, AsRow(last)), closed)
  {
  }

  ghost predicate Inv(s: State, id: BackendId, start: Row) {
    && Balanced(SumFor(s.rows, id), s.lost, start, s.closed, s.last)
    && NonNegative(s.last) && Below(s.last, s.now)
  }

  lemma {:induction false} ActionKeeps(s: State, a: Action, id: BackendId, start: Row)
    requires Inv(s, id, start) && Can(a, id)
    ensures Inv(Do(s, a, id), id, start)
  {
    BalancedAfterFlush(SumFor(s.rows, id), s.lost, start, s.closed, s.last, s.now);
    BalancedAfterRestart(SumFor(s.rows, id), s.lost, start, s.closed, s.last);
    match a
    case Flush(hour, ok) => UpsertAdds(s.rows, RowKey(id, hour), AsRow(Minus(s.now, s.last)), id);
    case OtherBackend(k, r) => UpsertAdds(s.rows, k, r, id);
    case _ =>
    hide SumFor, Upserted, Add, Balanced, AsRow;
  }

  lemma {:induction false} RunKeeps(s: State, run: seq<Action>, id: BackendId, start: Row)
    requires Inv(s, id, start) && Legal(run, id)
    ensures Inv(DoAll(s, run, id), id, start)
    decreases |run|
  {
    if run != [] {
      assert run[0] in run && forall a :: a in run[1..] ==> a in run;
      ActionKeeps(s, run[0], id, start);
      RunKeeps(Do(s, run[0], id), run[1..], id, start);
    }
  }

  function Fresh(rows: Rows): State {
    State(rows, NoTraffic(), NoTraffic(), Zero(), Zero())
  }

  lemma FreshInv(rows: Rows, id: BackendId)
    ensures Inv(Fresh(rows), id, SumFor(rows, id))
  {
    hide SumFor, Balanced;
    BalancedAtFirst(SumFor(rows, id));
  }

  /**
   * The books of a backend over any run, across hours, failed flushes and
   * restarts: what the table gained and what failed flushes lost is what all
   * its flushers together snapshotted.
   */
  lemma AccountBalances(rows: Rows, run: seq<Action>, id: BackendId)
    requires Legal(run, id)
    ensures Inv(DoAll(Fresh(rows), run, id), id, SumFor(rows, id))
  {
    hide SumFor, DoAll, Inv, Legal, Fresh;
    FreshInv(rows, id);
    RunKeeps(Fresh(rows), run, id, SumFor(rows, id));
  }

  predicate NoFlushFails(run: seq<Action>) {
    forall a :: a in run && a.Flush? ==> a.ok
  }

  lemma {:induction false} NothingLostOrClosed(s: State, run: seq<Action>, id: BackendId)
    requires NoFlushFails(run)
    ensures DoAll(s, run, id).lost == s.lost
    ensures Restart !in run ==> DoAll(s, run, id).closed == s.closed
    decreases |run|
  {
    if run != [] {
      assert run[0] in run && forall a :: a in run[1..] ==> a in run;
      NothingLostOrClosed(Do(s, run[0], id), run[1..], id);
    }
  }

  /**
   * In one flusher's lifetime, when every RecordStat succeeds, the aggregate
   * grows by exactly the counters at the last flush, and never passes what the
   * pipes have counted.
   */
  lemma {:induction false} OneLifetimeConserves(rows: Rows, run: seq<Action>, id: BackendId)
    requires Legal(run, id) && NoFlushFails(run) && Restart !in run
    ensures var s := DoAll(Fresh(rows), run, id);
            && SumFor(s.rows, id) == Add(SumFor(rows, id), AsRow(s.last))
            && Gained(SumFor(rows, id), SumFor(s.rows, id), s.last)
            && Below(s.last, s.now)
  {
    AccountBalances(rows, run, id);
    NothingLostOrClosed(Fresh(rows), run, id);
    hide SumFor, DoAll, Legal, Balanced, Add;
    var s := DoAll(Fresh(rows), run, id);
    BalanceReads(SumFor(s.rows, id), s.lost, SumFor(rows, id), s.closed, s.last);
    GainedAdds(SumFor(rows, id), s.last);
  }

  /** Column by column, what was counted has been added. */
  predicate Gained(start: Row, sum: Row, c: Counters) {
    && sum.tcp == start.tcp + c.tcpIn + c.tcpOut
    && sum.udp == start.udp + c.udpBytes
    && sum.conns == start.conns + c.conns
    && sum.packets == start.packets + c.udpPkts
  }

  lemma GainedAdds(start: Row, c: Counters)
    ensures Gained(start, Add(start, AsRow(c)), c)
  {
  }

  /** All the traffic of a run, column by column. */
  function Carried(run: seq<Action>): Counters {
    if run == [] then Counters(0, 0, 0, 0, 0)
    else
      var c := Carried(run[1..]);
      match run[0]
      case Traffic(m) =>
        Counters(m.tcpIn + c.tcpIn, m.tcpOut + c.tcpOut, m.udpBytes + c.udpBytes, m.udpPkts + c.udpPkts, m.conns + c.conns)
      case _ => c
  }

  lemma {:induction false} NowIsCarried(s: State, run: seq<Action>, id: BackendId)
    ensures Minus(DoAll(s, run, id).now, s.now) == Carried(run)
    decreases |run|
  {
    if run != [] {
      hide Upserted;
      NowIsCarried(Do(s, run[0], id), run[1..], id);
    }
  }

  /** A flush at the end of a flusher's lifetime leaves nothing out: the aggregate has gained all the traffic there was. */
  lemma {:induction false} EverythingIsRecorded(rows: Rows, run: seq<Action>, id: BackendId, hour: int)
    requires Legal(run, id) && NoFlushFails(run) && Restart !in run
    ensures var s := Do(DoAll(Fresh(rows), run, id), Flush(hour, true), id);
            Gained(SumFor(rows, id), SumFor(s.rows, id), Carried(run))
  {
    AccountBalances(rows, run, id);
    NothingLostOrClosed(Fresh(rows), run, id);
    NowIsCarried(Fresh(rows), run, id);
    hide SumFor, DoAll, Upserted, Legal, Balanced, Add, AsRow, Gained;
    var start, s := SumFor(rows, id), DoAll(Fresh(rows), run, id);
    ActionKeeps(s, Flush(hour, true), id, start);
    FlushAdds(s, hour, id);
    var t := Do(s, Flush(hour, true), id);
    BalanceReads(SumFor(t.rows, id), t.lost, start, t.closed, t.last);
    GainedAdds(start, t.last);
  }

  function RowAt(rows: Rows, k: RowKey): Row {
    if k in rows then rows[k] else Zero()
  }

  /** What the successful flushes of one hour carried. */
  function FlushedIn(s: State, run: seq<Action>, id: BackendId, hour: int): Row
    decreases |run|
  {
    if run == [] then Zero()
    else
      Add(if run[0] == Flush(hour, true) then AsRow(Minus(s.now, s.last)) else Zero(),
          FlushedIn(Do(s, run[0], id), run[1..], id, hour))
  }

  lemma AddAssociates(a: Row, b: Row, c: Row)
    ensures Add(Add(a, b), c) == Add(a, Add(b, c))
  {
  }

  lemma AddZero(a: Row)
    ensures Add(a, Zero()) == a && Add(Zero(), a) == a
  {
  }

  lemma NoDifference(c: Counters)
    ensures AsRow(Minus(c, c)) == Zero()
  {
  }

  lemma UpsertedRow(rows: Rows, k: RowKey, r: Row, l: RowKey)
    ensures RowAt(Upserted(rows, k, r), l) == if k == l then Add(RowAt(rows, k), r) else RowAt(rows, l)
  {
    AddZero(r);
    hide Add, Zero;
  }

  lemma RowStep(s: State, a: Action, id: BackendId, hour: int)
    requires Can(a, id)
    ensures RowAt(Do(s, a, id).rows, RowKey(id, hour))
         == Add(RowAt(s.rows, RowKey(id, hour)), if a == Flush(hour, true) then AsRow(Minus(s.now, s.last)) else Zero())
  {
    hide RowAt, Upserted, Add, AsRow, Zero;
    var l := RowKey(id, hour);
    AddZero(RowAt(s.rows, l));
    NoDifference(s.now);
    match a
    case Flush(h, _) => UpsertedRow(s.rows, RowKey(id, h), AsRow(Minus(s.now, s.last)), l);
    case OtherBackend(k, r) => UpsertedRow(s.rows, k, r, l);
    case _ =>
  }

  /** Each hour's row gains what was flushed in that hour, and nothing else. */
  lemma {:induction false} HoursAreSeparate(s: State, run: seq<Action>, id: BackendId, hour: int)
    requires Legal(run, id)
    ensures RowAt(DoAll(s, run, id).rows, RowKey(id, hour))
         == Add(RowAt(s.rows, RowKey(id, hour)), FlushedIn(s, run, id, hour))
    decreases |run|
  {
    if run == [] {
      AddZero(RowAt(s.rows, RowKey(id, hour)));
    } else {
      assert run[0] in run && forall a :: a in run[1..] ==> a in run;
      var d := if run[0] == Flush(hour, true) then AsRow(Minus(s.now, s.last)) else Zero();
      RowStep(s, run[0], id, hour);
      HoursAreSeparate(Do(s, run[0], id), run[1..], id, hour);
      AddAssociates(RowAt(s.rows, RowKey(id, hour)), d, FlushedIn(Do(s, run[0], id), run[1..], id, hour));
      hide Do, RowAt, Add, AsRow;
    }
  }

  /** What another backend's flusher recorded in row k. */
  function AddedTo(run: seq<Action>, k: RowKey): Row {
    if run == [] then Zero()
    else
      Add(if run[0].OtherBackend? && run[0].k == k then run[0].r else Zero(), AddedTo(run[1..], k))
  }

  lemma OtherRowStep(s: State, a: Action, id: BackendId, k: RowKey)
    requires k.backend != id
    ensures RowAt(Do(s, a, id).rows, k) == Add(RowAt(s.rows, k), if a.OtherBackend? && a.k == k then a.r else Zero())
  {
    hide RowAt, Upserted, Add, AsRow, Zero;
    AddZero(RowAt(s.rows, k));
    match a
    case Flush(h, _) => UpsertedRow(s.rows, RowKey(id, h), AsRow(Minus(s.now, s.last)), k);
    case OtherBackend(l, r) => UpsertedRow(s.rows, l, r, k);
    case _ =>
  }

  /** The rows of other backends gain what those record, and nothing from this one. */
  lemma {:induction false} BackendsAreSeparate(s: State, run: seq<Action>, id: BackendId, k: RowKey)
    requires k.backend != id
    ensures RowAt(DoAll(s, run, id).rows, k) == Add(RowAt(s.rows, k), AddedTo(run, k))
    decreases |run|
  {
    if run == [] {
      AddZero(RowAt(s.rows, k));
    } else {
      var a := run[0];
      OtherRowStep(s, a, id, k);
      BackendsAreSeparate(Do(s, a, id), run[1..], id, k);
      AddAssociates(RowAt(s.rows, k), if a.OtherBackend? && a.k == k then a.r else Zero(), AddedTo(run[1..], k));
      hide Do, RowAt, Add;
    }
  }

  /**
   * Across restarts flushes do over-count: right after a successful flush the
   * aggregate exceeds the counters by exactly what earlier flushers had
   * snapshotted, less what was lost, so it is right if and only if those agree.
   */
  lemma {:induction false} RestartRecounts(rows: Rows, run: seq<Action>, id: BackendId, hour: int)
    requires Legal(run, id)
    ensures var s := Do(DoAll(Fresh(rows), run, id), Flush(hour, true), id);
            && Add(SumFor(s.rows, id), s.lost) == Add(Add(SumFor(rows, id), AsRow(s.now)), s.closed)
            && (SumFor(s.rows, id) == Add(SumFor(rows, id), AsRow(s.now)) <==> s.lost == s.closed)
  {
    hide SumFor, DoAll, Upserted, Legal, Balanced, Add, Fresh;
    var s := DoAll(Fresh(rows), run, id);
    AccountBalances(rows, run, id);
    ActionKeeps(s, Flush(hour, true), id, SumFor(rows, id));
    var t := Do(s, Flush(hour, true), id);
    BalanceReads(SumFor(t.rows, id), t.lost, SumFor(rows, id), t.closed, t.last);
  }

  /** Every restart comes before its flusher has snapshotted anything. */
  predicate CleanRestarts(s: State, run: seq<Action>, id: BackendId)
    decreases |run|
  {
    run == [] || ((run[0] == Restart ==> s.last == NoTraffic()) && CleanRestarts(Do(s, run[0], id), run[1..], id))
  }

  predicate AtMost(a: Row, b: Row) {
    a.tcp <= b.tcp && a.udp <= b.udp && a.conns <= b.conns && a.packets <= b.packets
  }

  lemma ClosedStep(s: State, a: Action, id: BackendId)
    requires NonNegative(s.last)
    ensures AtMost(s.closed, Do(s, a, id).closed)
    ensures Do(s, a, id).closed == s.closed <==> (a == Restart ==> s.last == NoTraffic())
  {
    hide Upserted;
  }

  lemma {:induction false} ClosedGrows(s: State, run: seq<Action>, id: BackendId, start: Row)
    requires Inv(s, id, start) && Legal(run, id)
    ensures AtMost(s.closed, DoAll(s, run, id).closed)
    ensures DoAll(s, run, id).closed == s.closed <==> CleanRestarts(s, run, id)
    decreases |run|
  {
    if run != [] {
      assert run[0] in run && forall a :: a in run[1..] ==> a in run;
      ClosedStep(s, run[0], id);
      ActionKeeps(s, run[0], id, start);
      hide Do, SumFor, Balanced;
      ClosedGrows(Do(s, run[0], id), run[1..], id, start);
    }
  }

  /** What a balance without losses says: over-counting is what was closed. */
  lemma OverCount(sum: Row, start: Row, closed: Row, last: Counters)
    requires Balanced(sum, Zero(), start, closed, last) && AtMost(Zero(), closed)
    ensures AtMost(sum, Add(start, AsRow(last))) <==> closed == Zero()
  {
  }

  lemma UnderCount(sum: Row, start: Row, last: Counters, now: Counters)
    requires Balanced(sum, Zero(), start, Zero(), last) && Below(last, now)
    ensures AtMost(sum, Add(start, AsRow(now)))
  {
  }

  /**
   * When no flush fails, the aggregate after a flush is within the counters if
   * and only if no restart has followed a non-zero snapshot; and then it is
   * within them at every moment.
   */
  lemma NeverOverCountsIff(rows: Rows, run: seq<Action>, id: BackendId, hour: int)
    requires Legal(run, id) && NoFlushFails(run)
    ensures var s := Do(DoAll(Fresh(rows), run, id), Flush(hour, true), id);
            AtMost(SumFor(s.rows, id), Add(SumFor(rows, id), AsRow(s.now))) <==> CleanRestarts(Fresh(rows), run, id)
    ensures var s := DoAll(Fresh(rows), run, id);
            CleanRestarts(Fresh(rows), run, id) ==>
              AtMost(SumFor(s.rows, id), Add(SumFor(rows, id), AsRow(s.now)))
  {
    var start := SumFor(rows, id);
    FreshInv(rows, id);
    AccountBalances(rows, run, id);
    NothingLostOrClosed(Fresh(rows), run, id);
    ClosedGrows(Fresh(rows), run, id, start);
    hide SumFor, DoAll, Upserted, Legal, Balanced, Add, AsRow, AtMost, CleanRestarts, NoFlushFails;
    var s := DoAll(Fresh(rows), run, id);
    ActionKeeps(s, Flush(hour, true), id, start);
    var t := Do(s, Flush(hour, true), id);
    FlushAdds(s, hour, id);
    OverCount(SumFor(t.rows, id), start, t.closed, t.last);
    if s.closed == Zero() {
      UnderCount(SumFor(s.rows, id), start, s.last, s.now);
    }
  }

  /** A successful flush loses and closes nothing. */
  lemma FlushAdds(s: State, hour: int, id: BackendId)
    ensures var t := Do(s, Flush(hour, true), id); t.lost == s.lost && t.closed == s.closed && t.last == t.now == s.now
  {
    hide Upserted;
  }

  /** All that a first flusher recorded is recorded again by the first flush after a restart. */
  lemma FlushedTrafficCountsTwice(rows: Rows, run: seq<Action>, id: BackendId, hour: int)
    requires Legal(run, id) && NoFlushFails(run) && Restart !in run
    ensures var s := DoAll(Fresh(rows), run, id);
            var t := Do(Do(Do(s, Flush(hour, true), id), Restart, id), Flush(hour, true), id);
            SumFor(t.rows, id) == Add(SumFor(rows, id), Add(AsRow(s.now), AsRow(s.now)))
  {
    AccountBalances(rows, run, id);
    NothingLostOrClosed(Fresh(rows), run, id);
    hide SumFor, DoAll, Upserted, Legal, Balanced, Add, AsRow, Minus;
    var start := SumFor(rows, id);
    var s := DoAll(Fresh(rows), run, id);
    ActionKeeps(s, Flush(hour, true), id, start);
    var s1 := Do(s, Flush(hour, true), id);
    ActionKeeps(s1, Restart, id, start);
    var s2 := Do(s1, Restart, id);
    ActionKeeps(s2, Flush(hour, true), id, start);
    BalanceOfTwo(SumFor(Do(s2, Flush(hour, true), id).rows, id), start, s.now);
  }

  lemma BalanceOfTwo(sum: Row, start: Row, now: Counters)
    requires Balanced(sum, Zero(), start, Add(Zero(), AsRow(now)), now)
    ensures sum == Add(start, Add(AsRow(now), AsRow(now)))
  {
  }
}
