/**
 * Clients of the breaker that replay its worked scenarios through the
 * methods' contracts alone: a host tripped by its fifth outcome, fast
 * failing while unavailable, and recovering through a health probe.
 */
module Scenarios {
  import opened HostKeys
  import opened SlidingWindow
  import opened Breaker

  /** The URL of a call to `path` on `host`. */
  function Url(host: string, path: string): string {
    "http://" + host + "/" + path
  }

  /** The entries of the host after each of its first three outcomes. */
  lemma FirstOutcomes()
    ensures Record(NewEntry, true, 4, 50) == Entry(Available, [true])
    ensures Record(Entry(Available, [true]), false, 4, 50) == Entry(Available, [true, false])
    ensures Record(Entry(Available, [true, false]), false, 4, 50) == Entry(Available, [true, false, false])
  {
    assert Push([], true, 4) == [true];
    assert Push([true], false, 4) == [true, false];
    assert Push([true, false], false, 4) == [true, false, false];
  }

  /** One call through the gate to an available host, as the scenarios use it. */
  method Call(cb: CircuitBreaker, host: string, path: string, o: CallOutcome, after: Entry) returns (r: Response)
    requires cb.Valid() && '/' !in host
    requires Lookup(cb.services, host).state == Available
    requires after == Record(Lookup(cb.services, host), o.Returned? && o.status < 500, cb.windowSize, cb.thresholdPercent)
    modifies cb
    ensures cb.Valid()
    ensures cb.services == old(cb.services)[host := after]
    ensures r == if o.Raised? then Synthetic503 else Real(o.status)
    ensures |cb.transportCalls| == |old(cb.transportCalls)| + 1 && cb.healthChecks == old(cb.healthChecks)
    ensures cb.waiterActive == (old(cb.waiterActive) || Trips(after.window, cb.windowSize, cb.thresholdPercent))
  {
    HostKeyOfHttpUrl(host, path);
    r := cb.Send(Url(host, path), Some(o));
  }

  /**
   * Window size 4, threshold 50%. A call without a method changes nothing;
   * a success and then an exception leave `[T, F]`.
   */
  method StartHost(host: string, path: string) returns (cb: CircuitBreaker)
    requires '/' !in host
    ensures fresh(cb) && cb.Valid()
    ensures cb.windowSize == 4 && cb.thresholdPercent == 50
    ensures cb.services == map[host := Entry(Available, [true, false])]
    ensures !cb.waiterActive
    ensures |cb.transportCalls| == 2 && cb.healthChecks == []
  {
    FirstOutcomes();
    cb := new CircuitBreaker(4, 50, 1);
    var r := cb.Send(Url(host, path), None);
    assert r == Synthetic503 && cb.services == map[];
    r := Call(cb, host, path, Returned(200), Entry(Available, [true]));
    r := Call(cb, host, path, Raised, Entry(Available, [true, false]));
    assert r == Synthetic503;
  }

  /** A 502 and then a success leave `[T, F, F, T]`: exactly 50%, so the host stays available. */
  method FillHost(host: string, path: string) returns (cb: CircuitBreaker)
    requires '/' !in host
    ensures fresh(cb) && cb.Valid()
    ensures cb.windowSize == 4 && cb.thresholdPercent == 50
    ensures cb.services == map[host := Entry(Available, [true, false, false, true])]
    ensures !cb.waiterActive
    ensures |cb.transportCalls| == 4 && cb.healthChecks == []
  {
    FirstOutcomes();
    ThresholdIsStrict();
    cb := StartHost(host, path);
    var r := Call(cb, host, path, Returned(502), Entry(Available, [true, false, false]));
    assert r == Real(502);
    r := Call(cb, host, path, Returned(200), Entry(Available, [true, false, false, true]));
  }

  /** A fifth outcome, a failure, gives [F, F, T, F]: 75% opens the host and starts the prober. */
  method TripHost(host: string, path: string) returns (cb: CircuitBreaker)
    requires '/' !in host
    ensures fresh(cb) && cb.Valid()
    ensures cb.windowSize == 4 && cb.thresholdPercent == 50
    ensures cb.services == map[host := Entry(Unavailable, [false, false, true, false])]
    ensures cb.waiterActive
    ensures |cb.transportCalls| == 5 && cb.healthChecks == []
  {
    ThresholdIsStrict();
    cb := FillHost(host, path);
    var r := Call(cb, host, path, Raised, Entry(Unavailable, [false, false, true, false]));
    assert r == Synthetic503;
  }

  /** Once the host is unavailable, 100 further calls all fail fast without reaching the transport. */
  method FastFailHost(host: string, path: string, outcomes: seq<CallOutcome>) returns (responses: seq<Response>, transportCalls: nat)
    requires '/' !in host
    requires |outcomes| == 100
    ensures |responses| == 100
    ensures forall i :: 0 <= i < |responses| ==> responses[i] == Synthetic503
    ensures forall i :: 0 <= i < |responses| ==> responses[i].StatusCode() == ServiceUnavailable
    ensures transportCalls == 5
  {
    var cb := TripHost(host, path);
    HostKeyOfHttpUrl(host, path);
    responses := [];
    ghost var tripped := cb.services;
    for i := 0 to 100
      invariant cb.Valid()
      invariant cb.services == tripped && |cb.transportCalls| == 5
      invariant |responses| == i
      invariant forall k :: 0 <= k < i ==> responses[k] == Synthetic503
    {
      var r := cb.Send(Url(host, path), Some(outcomes[i]));
      responses := responses + [r];
    }
    transportCalls := |cb.transportCalls|;
  }

  /**
   * The prober's scan finds the host, its health probe answers 200, the host
   * is available again with an empty window, the next call reaches the
   * transport, and the following scan finds nothing and stops the prober.
   */
  method RecoverHost(host: string, path: string) returns (probed: set<string>, window: seq<bool>, next: Response, calledAgain: bool, stopped: bool)
    requires '/' !in host
    ensures probed == {host}
    ensures window == []
    ensures next == Real(200) && calledAgain
    ensures stopped
  {
    var cb := TripHost(host, path);
    HostKeyOfHttpUrl(host, path);
    var firstStop;
    probed, firstStop := cb.ScanOpen();
    assert UnavailableHosts(cb.services) == {host};
    cb.CheckHealth(host, Returned(HealthOk));
    window := cb.services[host].window;
    var callsBefore := |cb.transportCalls|;
    next := cb.Send(Url(host, path), Some(Returned(200)));
    calledAgain := |cb.transportCalls| == callsBefore + 1;
    assert cb.services[host].state == Available;
    assert UnavailableHosts(cb.services) == {};
    var again;
    again, stopped := cb.ScanOpen();
  }
}
