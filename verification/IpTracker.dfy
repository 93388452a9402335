/** The per-IP connection counter shared by all backends: internal/proxy/conn.go. */
module IpTracker {
  type IP = string
  type Live = map<IP, int>

  function Incremented(live: Live, ip: IP): Live {
    live[ip := CountOf(live, ip) + 1]
  }

  function Decremented(live: Live, ip: IP): Live {
    if ip !in live then live
    else if live[ip] - 1 <= 0 then live - {ip}
    else live[ip := live[ip] - 1]
  }

  function CountOf(live: Live, ip: IP): int {
    if ip in live then live[ip] else 0
  }

  predicate AllPositive(live: Live) {
    forall ip :: ip in live ==> live[ip] > 0
  }

  class IpConnTracker {
    var live: Live

    constructor ()
      ensures live == map[]
    {
      live := map[];
    }

    method Inc(ip: IP)
      modifies this
      ensures live == Incremented(old(live), ip)
    {
      var m := if ip in live then live[ip] else 0;
      live := live[ip := m + 1];
    }

    method Dec(ip: IP)
      modifies this
      ensures live == Decremented(old(live), ip)
    {
      if ip in live {
        live := live[ip := live[ip] - 1];
        if live[ip] <= 0 {
          live := live - {ip};
          assert live == old(live) - {ip};
        }
      }
    }

    method Count(ip: IP) returns (n: int)
      ensures n == CountOf(live, ip)
    {
      if ip in live {
        return live[ip];
      }
      return 0;
    }
  }

  /** dec undoes inc exactly, removing the entry inc created. */
  lemma DecUndoesInc(live: Live, ip: IP)
    requires AllPositive(live)
    ensures Decremented(Incremented(live, ip), ip) == live
  {
    if ip !in live {
      assert Incremented(live, ip) - {ip} == live;
    }
  }
}
