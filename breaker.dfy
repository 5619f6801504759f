/**
 * The per-host circuit breaker: a registry from host key to
 * `{state, window}`, the outcome recorder that trips a host to
 * "unavailable", the request gate that fails fast against such hosts, and
 * the two decisions of the recovery prober (stop when no host is
 * unavailable; a passing health probe makes a host available again).
 *
 * Each block the source runs under its lock is one method here; the prober
 * thread is the flag `waiterActive`, not a running task. The transport and
 * the health GET are not called: their outcome is a parameter.
 */
module Breaker {
  import opened HostKeys
  import opened SlidingWindow

  datatype Option<T> = None | Some(value: T)

  /** The two values of a host's `state`: "available" (closed) and "unavailable" (open). */
  datatype CircuitState = Available | Unavailable

  /** A registry entry: the host's state and its window of recent outcomes. */
  datatype Entry = Entry(state: CircuitState, window: seq<bool>)

  /** What a call to the transport (or to the health endpoint) ends with. */
  datatype CallOutcome = Raised | Returned(status: int)

  /**
   * What `send_request` hands back: the prepared response with status 503,
   * or the transport's own response.
   */
  datatype Response = Synthetic503 | Real(status: int) {
    function StatusCode(): int {
      if Synthetic503? then ServiceUnavailable else status
    }
  }

  const ServiceUnavailable: int := 503
  const HealthOk: int := 200

  /** The entry a host gets the first time it is seen. */
  const NewEntry: Entry := Entry(Available, [])

  /** The registry's entry for `host`, or the entry it is lazily given. */
  function Lookup(services: map<string, Entry>, host: string): Entry {
    if host in services then services[host] else NewEntry
  }

  /** A full window whose failure rate is strictly above the threshold. */
  predicate Trips(w: seq<bool>, cap: nat, thresholdPercent: int) {
    |w| >= cap && Exceeds(w, thresholdPercent)
  }

  /** The entry after `_register_result` appends `isSuccess` to it. */
  function Record(e: Entry, isSuccess: bool, cap: nat, thresholdPercent: int): (r: Entry)
    requires 1 <= cap && |e.window| <= cap
    ensures r.window == Push(e.window, isSuccess, cap)
    ensures |r.window| < cap ==> r.state == e.state
    ensures e.state == Unavailable ==> r.state == Unavailable
    ensures r.state == Unavailable <==> e.state == Unavailable || (|r.window| == cap && Exceeds(r.window, thresholdPercent))
  {
    var w := Push(e.window, isSuccess, cap);
    Entry(if Trips(w, cap, thresholdPercent) then Unavailable else e.state, w)
  }

  /**
   * On a window that is already full, the trip decision weighs the evicted
   * oldest outcome against the new one.
   */
  lemma RecordOnFullWindow(e: Entry, isSuccess: bool, cap: nat, thresholdPercent: int)
    requires 1 <= cap && |e.window| == cap
    ensures Record(e, isSuccess, cap, thresholdPercent).state == Unavailable <==>
              e.state == Unavailable ||
              100 * (Failures(e.window) - FailureOf(e.window[0]) + FailureOf(isSuccess)) > thresholdPercent * cap
  {
    FailuresAfterPush(e.window, isSuccess, cap);
  }

  /**
   * Window size 4, threshold 50%: after [T, F, F, T] the rate is exactly 50%
   * and the host stays available; a further F leaves [F, F, T, F], 75%, and
   * the host becomes unavailable.
   */
  lemma ThresholdIsStrict()
    ensures Record(Entry(Available, [true, false, false]), true, 4, 50) == Entry(Available, [true, false, false, true])
    ensures Record(Entry(Available, [true, false, false, true]), false, 4, 50) == Entry(Unavailable, [false, false, true, false])
  {
    assert [true, false, false, true][..3] == [true, false, false];
    assert [true, false, false][..2] == [true, false];
    assert [true, false][..1] == [true];
    assert Failures([true, false, false, true]) == 2;
    assert [true, false, false, true][1..] + [false] == [false, false, true, false];
    assert [false, false, true, false][..3] == [false, false, true];
    assert [false, false, true][..2] == [false, false];
    assert [false, false][..1] == [false];
    assert Failures([false, false, true, false]) == 3;
  }

  /** The path of every service's health endpoint. */
  const HealthPath: string := "api/v1/manage/health"

  /** The health endpoint probed for `host`. */
  function HealthUrl(host: string): string {
    "http://" + host + "/" + HealthPath
  }

  /** The scheme "http" holds no "://". */
  lemma HttpHasNoSeparator()
    ensures Absent("http", "://")
  {
    assert ':' !in "http";
    forall i | 0 <= i && i + 3 <= |"http"|
      ensures !OccursAt("http", "://", i)
    {
      assert "http"[i..i + 3][0] == "http"[i];
    }
  }

  /** The host key of any `http://host/path` URL is `host`. */
  lemma HostKeyOfHttpUrl(host: string, path: string)
    requires '/' !in host
    ensures HostKey("http://" + host + "/" + path) == host
  {
    HttpHasNoSeparator();
    assert "http://" + host + "/" + path == "http" + "://" + host + "/" + path;
    HostKeyOfWellFormed("http", host, path);
  }

  /** The health probe of a host goes to that same host. */
  lemma HostKeyOfHealthUrl(host: string)
    requires '/' !in host
    ensures HostKey(HealthUrl(host)) == host
  {
    HostKeyOfHttpUrl(host, HealthPath);
  }

  /**
   * A call to `http://host` with no path is registered under `host` minus its
   * last character, so the health probe of that entry goes to a different
   * host than the one the calls went to (for `http://svc:8080`, the probe
   * goes to `http://svc:808/api/v1/manage/health`).
   */
  lemma HealthProbeOfPathlessUrlMissesHost(host: string)
    requires '/' !in host && host != []
    ensures HostKey("http://" + host) == host[..|host| - 1]
    ensures HostKey(HealthUrl(HostKey("http://" + host))) != host
  {
    HttpHasNoSeparator();
    assert "http://" + host == "http" + "://" + host;
    HostKeyWithoutPath("http", host);
    var key := host[..|host| - 1];
    assert '/' !in key by {
      forall i | 0 <= i < |key| ensures key[i] != '/' {
        assert key[i] == host[i];
      }
    }
    HostKeyOfHealthUrl(key);
  }

  /** The hosts whose state is "unavailable". */
  function UnavailableHosts(services: map<string, Entry>): set<string> {
    set h | h in services && services[h].state == Unavailable
  }

  /** Every window within capacity; an unavailable host's window is full. */
  ghost predicate EntryOk(e: Entry, cap: nat) {
    |e.window| <= cap && (e.state == Unavailable ==> |e.window| == cap)
  }

  /** No host is unavailable unless a prober is running. */
  ghost predicate ProberCovers(services: map<string, Entry>, waiter: bool) {
    forall h :: h in services && services[h].state == Unavailable ==> waiter
  }

  /** `ProberCovers` says: some host unavailable implies the prober is running. */
  lemma ProberCoversUnavailable(services: map<string, Entry>, waiter: bool)
    ensures ProberCovers(services, waiter) <==> (UnavailableHosts(services) != {} ==> waiter)
  {
    if !waiter && UnavailableHosts(services) != {} {
      var h :| h in UnavailableHosts(services);
      assert h in services && services[h].state == Unavailable;
    }
    if !waiter && !ProberCovers(services, waiter) {
      var h :| h in services && services[h].state == Unavailable;
      assert h in UnavailableHosts(services);
    }
  }

  /** Every entry of the registry is within capacity, and full when unavailable. */
  ghost predicate RegistryOk(services: map<string, Entry>, cap: nat) {
    forall h :: h in services ==> EntryOk(services[h], cap)
  }

  /** Replacing one entry by a well-formed one keeps the registry well-formed. */
  lemma UpdateKeepsRegistryOk(services: map<string, Entry>, host: string, e: Entry, cap: nat)
    requires RegistryOk(services, cap) && EntryOk(e, cap)
    ensures RegistryOk(services[host := e], cap)
  {
  }

  /** Recording an outcome keeps an entry within its capacity, and an unavailable one full. */
  lemma RecordKeepsEntryOk(e: Entry, isSuccess: bool, cap: nat, thresholdPercent: int)
    requires 1 <= cap && EntryOk(e, cap)
    ensures EntryOk(Record(e, isSuccess, cap, thresholdPercent), cap)
  {
  }

  /**
   * Recording an outcome for a registered host keeps the registry well-formed,
   * and leaves no unavailable host unless a prober was already running or
   * this outcome trips the host.
   */
  lemma RegisterKeepsValid(services: map<string, Entry>, host: string, isSuccess: bool, cap: nat, thresholdPercent: int, waiter: bool)
    requires 1 <= cap && RegistryOk(services, cap) && host in services
    requires ProberCovers(services, waiter)
    ensures var e := Record(services[host], isSuccess, cap, thresholdPercent);
      && RegistryOk(services[host := e], cap)
      && ProberCovers(services[host := e], waiter || Trips(e.window, cap, thresholdPercent))
  {
    var e := Record(services[host], isSuccess, cap, thresholdPercent);
    RecordKeepsEntryOk(services[host], isSuccess, cap, thresholdPercent);
    UpdateKeepsRegistryOk(services, host, e, cap);
  }

  /** A second update of the same key overrides the first. */
  lemma UpdateTwice(services: map<string, Entry>, host: string, first: Entry, second: Entry)
    ensures services[host := first][host := second] == services[host := second]
  {
  }

  /** `after` differs from `before` at most in the entry of `host`. */
  ghost predicate OnlyHostChanged(before: map<string, Entry>, after: map<string, Entry>, host: string) {
    && after.Keys <= before.Keys + {host}
    && forall h :: h in before && h != host ==> h in after && after[h] == before[h]
  }

  /** Updating one entry leaves every other host's entry as it was. */
  lemma UpdateChangesOnlyHost(services: map<string, Entry>, host: string, e: Entry)
    ensures OnlyHostChanged(services, services[host := e], host)
  {
  }

  class CircuitBreaker {
    /** `WINDOW_SIZE`: the deque's `maxlen`. */
    const windowSize: nat
    /** `fail_threshold_percent`, kept as a whole percentage. */
    const thresholdPercent: int
    /** The prober's sleep between scans, in seconds (only stored; time is not modelled). */
    const probeInterval: nat

    /** `_services`: host key to entry. */
    var services: map<string, Entry>
    /** `_waiter is not None`: a prober has been started and has not yet stopped. */
    var waiterActive: bool

    /** URLs handed to the transport, in order. */
    var transportCalls: seq<string>
    /** Health endpoints probed, in order. */
    var healthChecks: seq<string>

    ghost predicate Valid()
      reads this
    {
      && windowSize >= 1
      && RegistryOk(services, windowSize)
      && ProberCovers(services, waiterActive)
    }

    constructor (windowSize: nat, thresholdPercent: int, probeInterval: nat)
      requires windowSize >= 1
      ensures Valid()
      ensures this.windowSize == windowSize && this.thresholdPercent == thresholdPercent
      ensures this.probeInterval == probeInterval
      ensures services == map[] && !waiterActive
      ensures transportCalls == [] && healthChecks == []
    {
      this.windowSize := windowSize;
      this.thresholdPercent := thresholdPercent;
      this.probeInterval := probeInterval;
      services := map[];
      waiterActive := false;
      transportCalls := [];
      healthChecks := [];
    }

    /**
     * `_register_result`: append the outcome; once the window is full, trip
     * the host when its failure rate is strictly above the threshold, and
     * start the prober if none is running.
     */
    method RegisterResult(host: string, isSuccess: bool)
      requires Valid() && host in services
      modifies this`services, this`waiterActive
      ensures Valid()
      ensures services == old(services)[host := Record(old(services)[host], isSuccess, windowSize, thresholdPercent)]
      ensures waiterActive == (old(waiterActive) || Trips(services[host].window, windowSize, thresholdPercent))
    {
      // The append and the trip test on the host's entry.
      var recorded := Record(services[host], isSuccess, windowSize, thresholdPercent);
      RegisterKeepsValid(services, host, isSuccess, windowSize, thresholdPercent, waiterActive);
      var startProber := Trips(recorded.window, windowSize, thresholdPercent) && !waiterActive;
      services := services[host := recorded];
      // A trip starts the prober when none is running.
      if startProber {
        waiterActive := true;
      }
    }

    /**
     * The part of `send_request` before the transport call: derive the host
     * key, give a new host its entry, and let the call through only when the
     * host is available.
     */
    method Admit(url: string) returns (host: string, admitted: bool)
      requires Valid()
      modifies this`services
      ensures Valid()
      ensures host == HostKey(url)
      ensures admitted <==> Lookup(old(services), host).state == Available
      ensures admitted ==> services == old(services)[host := Lookup(old(services), host)]
      ensures !admitted ==> services == old(services)
    {
      host := HostKey(url);
      if host !in services {
        services := services[host := NewEntry];
      }
      admitted := services[host].state == Available;
    }

    /**
     * `send_request`. `httpMethod` is `None` when no method is given, and
     * otherwise the outcome calling it would have.
     */
    method Send(url: string, httpMethod: Option<CallOutcome>) returns (resp: Response)
      requires Valid()
      modifies this
      ensures Valid()
      ensures healthChecks == old(healthChecks)
      // No method: 503, nothing created, nothing called.
      ensures httpMethod.None? ==>
                resp == Synthetic503 && services == old(services) &&
                waiterActive == old(waiterActive) && transportCalls == old(transportCalls)
      // Unavailable host: 503 without calling the transport or touching the registry.
      ensures httpMethod.Some? && Lookup(old(services), HostKey(url)).state == Unavailable ==>
                resp == Synthetic503 && services == old(services) &&
                waiterActive == old(waiterActive) && transportCalls == old(transportCalls)
      // Available (or new) host: exactly one transport call and one recorded outcome.
      ensures httpMethod.Some? && Lookup(old(services), HostKey(url)).state == Available ==>
                && transportCalls == old(transportCalls) + [url]
                && HostKey(url) in services
                && waiterActive == (old(waiterActive) || Trips(services[HostKey(url)].window, windowSize, thresholdPercent))
      ensures httpMethod == Some(Raised) && Lookup(old(services), HostKey(url)).state == Available ==>
                && resp == Synthetic503
                && services == old(services)[HostKey(url) := Record(Lookup(old(services), HostKey(url)), false, windowSize, thresholdPercent)]
      ensures httpMethod.Some? && httpMethod.value.Returned? && httpMethod.value.status < 500 &&
              Lookup(old(services), HostKey(url)).state == Available ==>
                && resp == Real(httpMethod.value.status)
                && services == old(services)[HostKey(url) := Record(Lookup(old(services), HostKey(url)), true, windowSize, thresholdPercent)]
      ensures httpMethod.Some? && httpMethod.value.Returned? && httpMethod.value.status >= 500 &&
              Lookup(old(services), HostKey(url)).state == Available ==>
                && resp == Real(httpMethod.value.status)
                && services == old(services)[HostKey(url) := Record(Lookup(old(services), HostKey(url)), false, windowSize, thresholdPercent)]
      // No other host's entry changes.
      ensures OnlyHostChanged(old(services), services, HostKey(url))
    {
      if httpMethod.None? {
        return Synthetic503;
      }
      var host, admitted := Admit(url);
      if !admitted {
        return Synthetic503;
      }
      transportCalls := transportCalls + [url];
      // The exception path and a 5xx both record a failure; only the
      // exception path hides the transport's response behind the 503.
      var isSuccess: bool;
      match httpMethod.value {
        case Raised =>
          isSuccess, resp := false, Synthetic503;
        case Returned(status) =>
          isSuccess, resp := status < 500, Real(status);
      }
      ghost var entry := Lookup(old(services), host);
      RegisterResult(host, isSuccess);
      ghost var after := Record(entry, isSuccess, windowSize, thresholdPercent);
      UpdateTwice(old(services), host, entry, after);
      UpdateChangesOnlyHost(old(services), host, after);
    }

    /** The prober's scan under the lock: every host whose state is "unavailable" gets a probe. */
    method CollectUnavailable() returns (hosts: set<string>)
      ensures hosts == UnavailableHosts(services)
    {
      hosts := {};
      var remaining := services.Keys;
      while remaining != {}
        invariant remaining <= services.Keys
        invariant hosts == set h | h in services && h !in remaining && services[h].state == Unavailable
        decreases remaining
      {
        var h :| h in remaining;
        if services[h].state == Unavailable {
          hosts := hosts + {h};
        }
        remaining := remaining - {h};
      }
    }

    /**
     * One iteration of `_wait_for_available`: the hosts to probe, and whether
     * the prober stops; stopping clears the marker so a later trip starts a
     * new prober.
     */
    method ScanOpen() returns (probed: set<string>, stopped: bool)
      requires Valid() && waiterActive
      modifies this
      ensures Valid()
      ensures probed == UnavailableHosts(services)
      ensures stopped <==> probed == {}
      ensures waiterActive == !stopped
      ensures services == old(services)
      ensures transportCalls == old(transportCalls) && healthChecks == old(healthChecks)
    {
      probed := CollectUnavailable();
      stopped := probed == {};
      if stopped {
        forall h | h in services
          ensures services[h].state == Available
        {
          assert h !in probed;
        }
        waiterActive := false;
      }
    }

    /**
     * `_check_health` for one host: a 200 from the health endpoint makes the
     * host available with an empty window. Anything else changes nothing, and
     * so does a 200 for a host the registry does not hold: the lookup raises,
     * and the handler around the probe swallows the error.
     */
    method CheckHealth(host: string, probe: CallOutcome)
      requires Valid()
      modifies this
      ensures Valid()
      ensures healthChecks == old(healthChecks) + [HealthUrl(host)]
      ensures probe == Returned(HealthOk) && host in old(services) ==>
                services == old(services)[host := Entry(Available, [])]
      ensures probe != Returned(HealthOk) || host !in old(services) ==> services == old(services)
      ensures waiterActive == old(waiterActive) && transportCalls == old(transportCalls)
    {
      healthChecks := healthChecks + [HealthUrl(host)];
      if probe == Returned(HealthOk) && host in services {
        services := services[host := services[host].(state := Available)];
        services := services[host := services[host].(window := [])];
      }
    }
  }
}
