/**
 * The free-port search shared by the servers: the first port of an
 * inclusive range that the availability check accepts.
 */
module PortUtils {
  import opened Wrappers

  /** `is_port_available(port)`: whether a socket could be bound to the port right now. */
  type Availability = int -> bool

  /** The first available port of `[lo, hi]`, as a reference for the scan. */
  function FirstFree(lo: int, hi: int, available: Availability): Option<int>
    decreases hi - lo + 1
  {
    if lo > hi then None
    else if available(lo) then Some(lo)
    else FirstFree(lo + 1, hi, available)
  }

  /** The reference search finds the least available port of the range, and finds none only when there is none. */
  lemma {:induction false} FirstFreeIsLeast(lo: int, hi: int, available: Availability)
    ensures var r := FirstFree(lo, hi, available);
      && (r.Some? ==> lo <= r.value <= hi && available(r.value)
                      && forall p :: lo <= p < r.value ==> !available(p))
      && (r.None? <==> forall p :: lo <= p <= hi ==> !available(p))
    decreases hi - lo + 1
  {
    if lo <= hi && !available(lo) {
      FirstFreeIsLeast(lo + 1, hi, available);
    }
  }

  /** The ports `lo, lo + 1, …, hi` in order (none when `lo > hi`). */
  function Range(lo: int, hi: int): (r: seq<int>)
    ensures |r| == if lo > hi then 0 else hi - lo + 1
    ensures forall k :: 0 <= k < |r| ==> r[k] == lo + k
    decreases hi - lo + 1
  {
    if lo > hi then [] else [lo] + Range(lo + 1, hi)
  }

  /**
   * `find_free_port(start_port, end_port)`: the ports are asked about in
   * increasing order until one is available; `probed` lists the ports asked
   * about, which end at the returned one.
   */
  method FindFreePort(startPort: int, endPort: int, available: Availability) returns (port: Option<int>, probed: seq<int>)
    ensures port == FirstFree(startPort, endPort, available)
    ensures port.Some? ==> probed == Range(startPort, port.value)
    ensures port.None? ==> probed == Range(startPort, endPort)
    ensures forall k :: 0 <= k < |probed| - 1 ==> !available(probed[k])
  {
    var p := startPort;
    probed := [];
    while p <= endPort
      invariant startPort <= p && (p <= endPort + 1 || p == startPort)
      invariant probed == Range(startPort, p - 1)
      invariant FirstFree(p, endPort, available) == FirstFree(startPort, endPort, available)
      invariant forall k :: 0 <= k < |probed| ==> !available(probed[k])
      decreases endPort - p + 1
    {
      probed := probed + [p];
      if available(p) {
        RangeSnoc(startPort, p);
        return Some(p), probed;
      }
      RangeSnoc(startPort, p);
      p := p + 1;
    }
    port := None;
  }

  /** Extending a range by its next port. */
  lemma RangeSnoc(lo: int, hi: int)
    requires lo <= hi
    ensures Range(lo, hi) == Range(lo, hi - 1) + [hi]
  {
    var a, b := Range(lo, hi), Range(lo, hi - 1) + [hi];
    assert |a| == |b|;
    forall k | 0 <= k < |a| ensures a[k] == b[k] {
    }
  }
}
