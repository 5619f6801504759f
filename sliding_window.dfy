/**
 * A host's outcome history: a `deque(maxlen=cap)` of booleans (true for a
 * success, false for a failure) and the error-rate test the breaker applies
 * to it once it is full.
 */
module SlidingWindow {

  /** `deque(maxlen=cap).append(b)` on a deque holding `w`: once at capacity the oldest outcome goes. */
  function Push(w: seq<bool>, b: bool, cap: nat): (r: seq<bool>)
    requires 1 <= cap && |w| <= cap
    ensures |r| == if |w| < cap then |w| + 1 else cap
  {
    if |w| < cap then w + [b] else w[1..] + [b]
  }

  /** The window after an append holds the most recent outcomes of `w + [b]`, as many as fit. */
  lemma PushKeepsMostRecent(w: seq<bool>, b: bool, cap: nat)
    requires 1 <= cap && |w| <= cap
    ensures Push(w, b, cap) == (w + [b])[|w| + 1 - |Push(w, b, cap)|..]
  {
    if |w| == cap {
      assert (w + [b])[1..] == w[1..] + [b];
    }
  }

  /** Appending keeps the window within capacity, puts the new outcome last and keeps the order of the rest. */
  lemma PushKeepsRecentInOrder(w: seq<bool>, b: bool, cap: nat)
    requires 1 <= cap && |w| <= cap
    ensures |Push(w, b, cap)| <= cap
    ensures Push(w, b, cap)[|Push(w, b, cap)| - 1] == b
    ensures |w| < cap ==> Push(w, b, cap)[..|w|] == w
    ensures |w| == cap ==> Push(w, b, cap)[..cap - 1] == w[1..]
  {
    var r := Push(w, b, cap);
    if |w| == cap {
      assert r == w[1..] + [b];
      assert r[..cap - 1] == w[1..];
    } else {
      assert r == w + [b];
      assert r[..|w|] == w;
    }
  }

  /** Python's `window.count(False)`. */
  function Failures(w: seq<bool>): (n: nat)
    ensures n <= |w|
  {
    if w == [] then 0 else Failures(w[..|w| - 1]) + (if w[|w| - 1] then 0 else 1)
  }

  /** One for a failed outcome, zero for a success. */
  function FailureOf(b: bool): nat {
    if b then 0 else 1
  }

  /** `Failures` counts the occurrences of `false`, as the multiset of the window says. */
  lemma {:induction false} FailuresCountsFalse(w: seq<bool>)
    ensures Failures(w) == multiset(w)[false]
  {
    if w != [] {
      var init := w[..|w| - 1];
      assert w == init + [w[|w| - 1]];
      FailuresCountsFalse(init);
    }
  }

  /** Appending one outcome adds its failure to the count. */
  lemma {:induction false} FailuresSnoc(w: seq<bool>, b: bool)
    ensures Failures(w + [b]) == Failures(w) + FailureOf(b)
  {
    assert (w + [b])[..|w|] == w;
  }

  /** Prepending one outcome adds its failure to the count. */
  lemma {:induction false} FailuresCons(b: bool, w: seq<bool>)
    ensures Failures([b] + w) == FailureOf(b) + Failures(w)
  {
    if w == [] {
      assert [b] + w == [] + [b];
      FailuresSnoc([], b);
    } else {
      var init, last := w[..|w| - 1], w[|w| - 1];
      assert [b] + w == ([b] + init) + [last];
      assert w == init + [last];
      FailuresSnoc([b] + init, last);
      FailuresSnoc(init, last);
      FailuresCons(b, init);
    }
  }

  /** Failures of a concatenation add up. */
  lemma {:induction false} FailuresAppend(a: seq<bool>, b: seq<bool>)
    ensures Failures(a + b) == Failures(a) + Failures(b)
  {
    if b == [] {
      assert a + b == a;
    } else {
      var init, last := b[..|b| - 1], b[|b| - 1];
      assert a + b == (a + init) + [last];
      assert b == init + [last];
      FailuresSnoc(a + init, last);
      FailuresSnoc(init, last);
      FailuresAppend(a, init);
    }
  }

  /** Dropping the oldest outcome and appending `b` trades the one's failure for the other's. */
  lemma FailuresEvict(w: seq<bool>, b: bool)
    requires |w| >= 1
    ensures Failures(w[1..] + [b]) == Failures(w) - FailureOf(w[0]) + FailureOf(b)
  {
    var rest := w[1..];
    FailuresSnoc(rest, b);
    assert w == [w[0]] + rest;
    FailuresCons(w[0], rest);
  }

  /** When a window takes a new outcome, its failure joins the count; at capacity the oldest one's leaves it. */
  lemma FailuresAfterPush(w: seq<bool>, b: bool, cap: nat)
    requires 1 <= cap && |w| <= cap
    ensures |w| < cap ==> Failures(Push(w, b, cap)) == Failures(w) + FailureOf(b)
    ensures |w| == cap ==> Failures(Push(w, b, cap)) == Failures(w) - FailureOf(w[0]) + FailureOf(b)
  {
    if |w| < cap {
      FailuresSnoc(w, b);
    } else {
      FailuresEvict(w, b);
    }
  }

  /**
   * The trip test `errors / total > threshold_percent / 100`, stated in
   * integers, for a non-empty window.
   */
  predicate Exceeds(w: seq<bool>, thresholdPercent: int) {
    |w| > 0 && 100 * Failures(w) > thresholdPercent * |w|
  }

  /** The failure rate of a non-empty window, as an exact fraction. */
  ghost function FailureRate(w: seq<bool>): real
    requires |w| > 0
  {
    Failures(w) as real / |w| as real
  }

  /** The integer test is the rate comparison over exact fractions. */
  lemma ExceedsIsRateAboveThreshold(w: seq<bool>, thresholdPercent: int)
    requires |w| > 0
    ensures Exceeds(w, thresholdPercent) <==> FailureRate(w) > thresholdPercent as real / 100.0
  {
    var f, t, p := Failures(w) as real, |w| as real, thresholdPercent as real;
    assert FailureRate(w) * t == f;
    assert (f / t > p / 100.0) <==> (f * 100.0 > p * t) by {
      assert f / t - p / 100.0 == (100.0 * f - p * t) / (100.0 * t);
    }
  }
}
