# Per-host circuit breaker for a gateway's outbound HTTP calls

This project models `CircuitBreaker` from `gateway_service/app/utils/curcuitBreaker.py`
and proves properties about the model. The breaker keeps a registry (`_services`) from a
host key to `{state, window}`:

- `state` is `"available"` (closed) or `"unavailable"` (open).
- `window` is a `deque(maxlen=WINDOW_SIZE)` of call outcomes: `True` for a success,
  `False` for a failure.

`send_request` derives the host key from the URL. It creates the host's entry lazily and
fails fast with a 503 while the host is unavailable. Otherwise it calls the transport and
records the outcome. Once the window is full, `_register_result` opens the host when the
failure rate is strictly above the threshold. On that trip it starts a background prober
if none is running. Each prober scan sends a health probe to every unavailable host, and
the prober stops when a scan finds none. A health probe that answers 200 makes the host
available again and empties its window.

Modules, leaf first:

- `host_key.dfy`, module `HostKeys`: Python's `str.find` and slicing, and the host-key
  expression of lines 34-35.
- `sliding_window.dfy`, module `SlidingWindow`: the bounded deque append, `count(False)`,
  and the error-rate test.
- `breaker.dfy`, module `Breaker`:
  - the entry datatypes and the pure recording step `Record`;
  - class `CircuitBreaker`, which holds `services: map<string, Entry>`, the prober marker
    `waiterActive` (the source's `_waiter is not None`) and two call logs.
- `scenarios.dfy`, module `Scenarios`: clients that replay the worked examples (trip at
  75%, 100 fast fails, recovery) through the method contracts alone.

The object invariant `CircuitBreaker.Valid()` holds after every method:

- every window holds at most `windowSize` outcomes;
- an unavailable host's window is full;
- whenever some host is unavailable, the prober marker is set.

The last point means no open host is ever left without a prober. It holds in the model
because each locked block is one atomic method, and because `ScanOpen` also folds the
unlocked end of the prober (lines 113-116) into the scan's step. In the source that last
step can race with a trip (see "Left out").

Points of the code's behaviour that one might expect otherwise:

- The failure rate is divided by `len(window)`, not by the capacity. The two are equal
  once the window is full, which is the only time the rate is computed.
- The prober marker is not cleared when the last open host closes. It is cleared only by
  a scan that finds no unavailable host, so a probe that closes the last open host leaves
  the marker set until the next scan. `CheckHealth` keeps `waiterActive` unchanged, and
  `ScanOpen` clears it.
- Host-key extraction has edge cases, each stated as a lemma:
  - A URL with no `/` after the host drops the host's last character, because
    `find('/')` answers -1 and `[:-1]` cuts one character.
  - A URL without `://` loses its first two characters, because the start index becomes
    `-1 + 3`.
  - Hence a host called as `http://svc:8080`, with no path, is registered as `svc:808`,
    and its health probe goes to `http://svc:808/api/v1/manage/health`, not to the host
    that was called (`HealthProbeOfPathlessUrlMissesHost`).

## Model

| member | source | states |
|---|---|---|
| HostKeys.Find | gateway_service/app/utils/curcuitBreaker.py:34-35 | `str.find`: the result is -1 exactly when the pattern occurs nowhere; otherwise it is an occurrence with no earlier occurrence |
| HostKeys.HostKey | gateway_service/app/utils/curcuitBreaker.py:34-35 | the key is no longer than the URL (its exact value is given by the lemmas below) |
| HostKeys.HostKeyHasNoSlash | gateway_service/app/utils/curcuitBreaker.py:34-35 | whatever the URL, the key contains no `/` |
| HostKeys.HostKeyOfWellFormed | gateway_service/app/utils/curcuitBreaker.py:34-35 | for `s + "://" + h + "/" + p` with no `://` in `s` and no `/` in `h`, the key is exactly `h` |
| HostKeys.HostKeyWithoutPath | gateway_service/app/utils/curcuitBreaker.py:35 | with no `/` after the host, the key is the host minus its last character (empty for an empty host) |
| HostKeys.HostKeyWithoutScheme | gateway_service/app/utils/curcuitBreaker.py:34 | with no `://` in the URL, the host part is taken from index 2 on |
| HostKeys.HostKeyWithoutSchemeDropsTwo | gateway_service/app/utils/curcuitBreaker.py:34-35 | for a scheme-less `h + "/" + p` (no `://` anywhere, no `/` in `h`), the key is `h` without its first two characters, so `localhost/api` gives `calhost` |
| SlidingWindow.Push | gateway_service/app/utils/curcuitBreaker.py:75 | appending to a `deque(maxlen=cap)` (line 40): the length grows by one until it reaches `cap` and then stays there |
| SlidingWindow.PushKeepsMostRecent | gateway_service/app/utils/curcuitBreaker.py:75 | the deque after the append is the longest suffix of `w + [b]` that fits: the most recent outcomes, in order |
| SlidingWindow.PushKeepsRecentInOrder | gateway_service/app/utils/curcuitBreaker.py:75 | the length never exceeds the capacity and the new outcome comes last; below capacity nothing is lost; at capacity exactly the oldest outcome goes and the rest keep their order |
| SlidingWindow.Failures | gateway_service/app/utils/curcuitBreaker.py:82 | `count(False)` is at most the window's length |
| SlidingWindow.FailuresCountsFalse | gateway_service/app/utils/curcuitBreaker.py:82 | the count equals the multiplicity of `false` in the window's multiset |
| SlidingWindow.FailuresAppend | gateway_service/app/utils/curcuitBreaker.py:82 | the failure counts of two concatenated windows add up |
| SlidingWindow.FailuresSnoc | gateway_service/app/utils/curcuitBreaker.py:82 | appending one outcome adds one to the count exactly when it is a failure |
| SlidingWindow.FailuresCons | gateway_service/app/utils/curcuitBreaker.py:82 | putting one outcome in front adds one to the count exactly when it is a failure |
| SlidingWindow.FailuresEvict | gateway_service/app/utils/curcuitBreaker.py:75-82 | evicting the oldest outcome and appending a new one removes the former's failure from the count and adds the latter's |
| SlidingWindow.FailuresAfterPush | gateway_service/app/utils/curcuitBreaker.py:75-82 | after an append the count gains the new outcome's failure, and at capacity it also loses the evicted oldest one's |
| SlidingWindow.Exceeds | gateway_service/app/utils/curcuitBreaker.py:82-87 | no contract; the body is the test `err_rate > FAIL_THRESHOLD` for a non-empty window, written `100 * count(False) > pct * len(window)` in integers |
| SlidingWindow.ExceedsIsRateAboveThreshold | gateway_service/app/utils/curcuitBreaker.py:84-87 | the integer test `100 * errors > pct * total` holds exactly when `errors / total > pct / 100` over exact fractions |
| Breaker.Lookup | gateway_service/app/utils/curcuitBreaker.py:37-43 | no contract; the body is `_services.get(host)` with the lazily created entry (available, empty window) as the default |
| Breaker.Trips | gateway_service/app/utils/curcuitBreaker.py:78-87 | no contract; the body is the trip condition: the window is full and `Exceeds` holds |
| Breaker.Record | gateway_service/app/utils/curcuitBreaker.py:72-89 | the window becomes the deque append; below capacity the state is kept; an unavailable host stays unavailable; the result is unavailable exactly when the host already was, or the window is full and strictly above the threshold |
| Breaker.RecordOnFullWindow | gateway_service/app/utils/curcuitBreaker.py:82-89 | on a full window the trip decision is the old count minus the evicted outcome's failure plus the new one's, compared strictly |
| Breaker.ThresholdIsStrict | gateway_service/app/utils/curcuitBreaker.py:87 | window 4 at 50%: `[T,F,F,T]` (exactly 50%) stays available; a further `F` gives `[F,F,T,F]` and opens the host |
| Breaker.RecordKeepsEntryOk | gateway_service/app/utils/curcuitBreaker.py:75-89 | recording keeps the window within capacity and an unavailable host's window full |
| Breaker.HealthProbeOfPathlessUrlMissesHost | gateway_service/app/utils/curcuitBreaker.py:34-35 | a call to `http://h` (no path, non-empty `h` without `/`) is keyed `h` minus its last character, and the health URL built from that key (line 120) has a key different from `h` |
| Breaker.ProberCoversUnavailable | gateway_service/app/utils/curcuitBreaker.py:91-95 | the invariant over all entries says: if the set of unavailable hosts is non-empty, the prober is running (both directions) |
| Breaker.RegisterKeepsValid | gateway_service/app/utils/curcuitBreaker.py:72-95 | recording an outcome keeps every window within capacity and every unavailable window full; an unavailable host is left only when a prober was running or this outcome trips the host |
| Breaker.HostKeyOfHttpUrl | gateway_service/app/utils/curcuitBreaker.py:34-35 | the key of `http://h/p` is `h` when `h` has no `/` |
| Breaker.HealthUrl | gateway_service/app/utils/curcuitBreaker.py:120 | no contract; the body is the f-string `http://{host_url}/api/v1/manage/health` |
| Breaker.HostKeyOfHealthUrl | gateway_service/app/utils/curcuitBreaker.py:120 | the health URL built for a host has that same host as its key |
| Breaker.CircuitBreaker.constructor | gateway_service/app/utils/curcuitBreaker.py:13-18 | the registry starts empty, no prober is running, and the window size, threshold and probe interval are the given settings |
| Breaker.CircuitBreaker.RegisterResult | gateway_service/app/utils/curcuitBreaker.py:72-95 | only the host's entry changes, to `Record` of the old one; the prober marker is set when the host trips and is otherwise left alone; the call logs are outside its frame; the invariant is kept |
| Breaker.CircuitBreaker.Admit | gateway_service/app/utils/curcuitBreaker.py:34-48 | the host key is computed from the URL; a new host gets an available entry with an empty window; the call is let through exactly when the host is available; an unavailable host's registry is left as it was |
| Breaker.CircuitBreaker.Send | gateway_service/app/utils/curcuitBreaker.py:21-69 | no method: 503, nothing created or called; unavailable host: 503, no transport call, registry unchanged; otherwise exactly one transport call and one recorded outcome (exception: failure and 503; status < 500: success and the real response; status >= 500: failure and the real response); no other host's entry changes |
| Breaker.CircuitBreaker.CollectUnavailable | gateway_service/app/utils/curcuitBreaker.py:104-111 | the loop over the registry collects exactly the hosts whose state is unavailable |
| Breaker.CircuitBreaker.ScanOpen | gateway_service/app/utils/curcuitBreaker.py:100-116 | a scan probes exactly the unavailable hosts; it stops the prober, clearing the marker, exactly when there are none; the registry is unchanged |
| Breaker.CircuitBreaker.CheckHealth | gateway_service/app/utils/curcuitBreaker.py:119-129 | a 200 for a registered host makes it available with an empty window; any other status, an exception, or a 200 for a host the registry lacks (the raised lookup error is caught) changes nothing; the probe goes to the host's health URL |
| Scenarios.FirstOutcomes | gateway_service/app/utils/curcuitBreaker.py:77-79 | the first three outcomes of a window of 4 leave the host available |
| Scenarios.StartHost | gateway_service/app/utils/curcuitBreaker.py:21-79 | window 4, threshold 50%: a call without a method changes nothing; a success and then an exception leave the host available with `[T,F]` and no prober |
| Scenarios.FillHost | gateway_service/app/utils/curcuitBreaker.py:21-89 | after those, a 502 and a success leave the host available with `[T,F,F,T]` (exactly 50%) and no prober |
| Scenarios.TripHost | gateway_service/app/utils/curcuitBreaker.py:82-95 | a fifth outcome, an exception, gives `[F,F,T,F]`, opens the host and marks a prober as running |
| Scenarios.FastFailHost | gateway_service/app/utils/curcuitBreaker.py:45-48 | after the trip, 100 calls with any transport behaviour all return the prepared response, whose status code is 503, and none reaches the transport |
| Scenarios.RecoverHost | gateway_service/app/utils/curcuitBreaker.py:104-127 | the scan probes the open host; a 200 probe empties its window; the next call reaches the transport and returns its response; the following scan stops the prober |

## Left out

- The transport and the health GET (lines 51-57, 122) are not performed. Their outcome is
  a parameter with two cases: an exception, or a status code. `CircuitBreaker.transportCalls`
  and `CircuitBreaker.healthChecks` record the URLs they would have been called with.
- Threads, the lock, `Thread.start` and `time.sleep` are not modelled. Each locked block is
  one atomic method. The prober thread is the flag `waiterActive`, and one scan of its
  `while True` loop is one `ScanOpen` call. `ScanOpen` also takes in the unlocked lines
  after the scan's locked block (113-116): the `all_ok` test, the `break` and
  `_waiter = None`.
- The races are therefore not modelled:
  - the test of `_waiter` and the prober start (lines 91-95) run under the lock, but the
    reset `_waiter = None` (line 116) runs after the scan's locked block (104-111) has
    ended. A host that trips between line 111 and line 116 sees the marker still set and
    starts no prober; the prober then exits, and that host stays open with no prober.
    `ProberCovers` holds in the model only because `ScanOpen` is one step;
  - probe threads are never joined (lines 107-110);
  - `send_request` creates a new host's entry and reads its state without the lock
    (lines 37-48); `Admit` does both in one step.
- SlidingWindow.Exceeds: compares `100 * errors > threshold_percent * total` in integers.
  This abstracts the source's float division and float threshold (lines 14, 84, 87).
  `ExceedsIsRateAboveThreshold` ties it to the exact fraction. Floating-point rounding is
  not modelled.
- Loading the settings (`get_settings`, lines 7, 11-14, 99) is not modelled. The window
  size (at least 1), the threshold as a whole percentage and the probe interval are
  constructor parameters.
- `print` logging is not modelled. The FastAPI status constants are the integers 503 and 200.
- The headers, body, params and timeout that `send_request` passes to the transport are not
  modelled, because the breaker's decisions do not depend on them.
- SlidingWindow.Push: its own contract states only the new length. Which outcomes the deque then holds is stated by `PushKeepsMostRecent` and `PushKeepsRecentInOrder`.
- HostKeys.HostKey: its own contract only bounds the key's length. That it holds no `/` and its value on each shape of URL are stated by the `HostKey...` lemmas.
- The order of a scan over the registry is not modelled. Python visits hosts in insertion
  order; `CollectUnavailable` returns the set of hosts probed, because probes are
  independent fire-and-forget tasks.
- Each deque is updated in place in the source. Here the new window replaces the entry in
  the registry map. Nothing outside the breaker holds a reference to an entry, so no
  aliasing is lost.
