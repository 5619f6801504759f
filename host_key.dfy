/**
 * The registry key of a request URL, computed the way the breaker does it:
 * the text after the first "://" up to the next "/", using Python's
 * `str.find` (which answers -1 when the pattern is absent) and Python's
 * slice-bound rules (negative bounds count from the end, every bound is
 * clamped to the string).
 */
module HostKeys {

  /** `pat` occurs in `s` starting at index `i`. */
  ghost predicate OccursAt(s: string, pat: string, i: int) {
    0 <= i && i + |pat| <= |s| && s[i..i + |pat|] == pat
  }

  /** `pat` occurs nowhere in `s`. */
  ghost predicate Absent(s: string, pat: string) {
    forall i :: !OccursAt(s, pat, i)
  }

  /** Python's `s.find(pat)`: the lowest index at which `pat` occurs, or -1. */
  function Find(s: string, pat: string): (r: int)
    ensures -1 <= r <= |s|
    ensures r >= 0 ==> OccursAt(s, pat, r)
    ensures r >= 0 ==> forall i :: 0 <= i < r ==> !OccursAt(s, pat, i)
    ensures r == -1 <==> Absent(s, pat)
    decreases |s|
  {
    if |s| < |pat| then -1
    else if s[..|pat|] == pat then assert OccursAt(s, pat, 0); 0
    else
      var k := Find(s[1..], pat);
      ShiftOccurrence(s, pat);
      if k == -1 then -1 else k + 1
  }

  /** An occurrence at `i` in `s`, past its first index, is one at `i - 1` in `s[1..]`. */
  lemma ShiftOccurrence(s: string, pat: string)
    requires |s| >= 1
    ensures forall i :: 1 <= i ==> (OccursAt(s, pat, i) <==> OccursAt(s[1..], pat, i - 1))
  {
    forall i | 1 <= i
      ensures OccursAt(s, pat, i) <==> OccursAt(s[1..], pat, i - 1)
    {
      if i + |pat| <= |s| {
        assert s[1..][i - 1..i - 1 + |pat|] == s[i..i + |pat|];
      }
    }
  }

  /** The first occurrence determines `Find`. */
  lemma FindFirst(s: string, pat: string, k: int)
    requires OccursAt(s, pat, k)
    requires forall i :: 0 <= i < k ==> !OccursAt(s, pat, i)
    ensures Find(s, pat) == k
  {
    var r := Find(s, pat);
    assert r != -1 by { assert !Absent(s, pat); }
  }

  /** Python's normalisation of a slice bound against a string of length `n`. */
  function SliceBound(i: int, n: nat): (r: nat)
    ensures r <= n
  {
    if i < 0 then (if i + n < 0 then 0 else i + n)
    else if i > n then n
    else i
  }

  /** Python's `s[a:]`. */
  function SliceFrom(s: string, a: int): string {
    s[SliceBound(a, |s|)..]
  }

  /** Python's `s[:b]`. */
  function SliceTo(s: string, b: int): string {
    s[..SliceBound(b, |s|)]
  }

  /** The host part of `url`, as `send_request` computes it before looking up the registry. */
  function HostKey(url: string): (key: string)
    ensures |key| <= |url|
  {
    var rest := SliceFrom(url, Find(url, "://") + 3);
    SliceTo(rest, Find(rest, "/"))
  }

  /** A one-character pattern occurs exactly where that character stands. */
  lemma OccursAtChar(s: string, c: char, i: int)
    ensures OccursAt(s, [c], i) <==> 0 <= i < |s| && s[i] == c
  {
    if 0 <= i < |s| {
      assert s[i..i + 1] == [s[i]];
    }
  }

  /** A host key never contains a slash, whatever the URL. */
  lemma {:induction false} HostKeyHasNoSlash(url: string)
    ensures '/' !in HostKey(url)
  {
    var rest := SliceFrom(url, Find(url, "://") + 3);
    var j := Find(rest, "/");
    var key := HostKey(url);
    forall i | 0 <= i < |key|
      ensures key[i] != '/'
    {
      assert key[i] == rest[i];
      OccursAtChar(rest, '/', i);
      if j == -1 {
        assert !OccursAt(rest, "/", i);
      } else {
        assert i < j;
      }
    }
  }

  /** In `s + "://" + rest` with no "://" inside `s`, the first "://" is the one after `s`. */
  lemma SchemeSeparatorAfter(s: string, rest: string)
    requires Absent(s, "://")
    ensures Find(s + "://" + rest, "://") == |s|
  {
    var url := s + "://" + rest;
    assert url[|s|..|s| + 3] == "://";
    forall i | 0 <= i < |s|
      ensures !OccursAt(url, "://", i)
    {
      if i + 3 <= |s| {
        assert url[i..i + 3] == s[i..i + 3];
        assert !OccursAt(s, "://", i);
      } else {
        // The ':' at index |s| falls on one of the pattern's '/' characters.
        assert url[i..i + 3][|s| - i] == ':' != "://"[|s| - i];
      }
    }
    FindFirst(url, "://", |s|);
  }

  /** The first '/' of `h + "/" + rest`, when `h` has none, is the one after `h`. */
  lemma SlashAfter(h: string, rest: string)
    requires '/' !in h
    ensures Find(h + "/" + rest, "/") == |h|
  {
    var t := h + "/" + rest;
    OccursAtChar(t, '/', |h|);
    forall i | 0 <= i < |h|
      ensures !OccursAt(t, "/", i)
    {
      OccursAtChar(t, '/', i);
      assert t[i] == h[i];
    }
    FindFirst(t, "/", |h|);
  }

  /** A string without '/' has no occurrence of "/". */
  lemma NoSlash(h: string)
    requires '/' !in h
    ensures Find(h, "/") == -1
  {
    forall i
      ensures !OccursAt(h, "/", i)
    {
      OccursAtChar(h, '/', i);
    }
  }

  /**
   * For a well-formed URL `scheme://host/path`, the key is exactly the host
   * (port included).
   */
  lemma HostKeyOfWellFormed(scheme: string, host: string, path: string)
    requires Absent(scheme, "://")
    requires '/' !in host
    ensures HostKey(scheme + "://" + host + "/" + path) == host
  {
    var url := scheme + "://" + host + "/" + path;
    var rest := host + "/" + path;
    assert url == scheme + "://" + rest;
    SchemeSeparatorAfter(scheme, rest);
    assert SliceFrom(url, |scheme| + 3) == rest;
    SlashAfter(host, path);
    assert SliceTo(rest, |host|) == host;
  }

  /**
   * A URL with no '/' after the host: `find` answers -1 and the slice `[:-1]`
   * drops the host's last character.
   */
  lemma HostKeyWithoutPath(scheme: string, host: string)
    requires Absent(scheme, "://")
    requires '/' !in host
    ensures HostKey(scheme + "://" + host) == if host == [] then [] else host[..|host| - 1]
  {
    var url := scheme + "://" + host;
    assert url == scheme + "://" + host + [];
    SchemeSeparatorAfter(scheme, host);
    assert SliceFrom(url, |scheme| + 3) == host;
    NoSlash(host);
  }

  /**
   * A URL with no "://" at all: `find` answers -1, so the host part starts at
   * index 2 of the URL.
   */
  lemma HostKeyWithoutScheme(url: string)
    requires Absent(url, "://")
    ensures HostKey(url) == var rest := SliceFrom(url, 2); SliceTo(rest, Find(rest, "/"))
  {
  }

  /**
   * A scheme-less `host/path`: the key is the host without its first two
   * characters (for instance "localhost/api" gives "calhost").
   */
  lemma HostKeyWithoutSchemeDropsTwo(host: string, path: string)
    requires Absent(host + "/" + path, "://")
    requires '/' !in host && |host| >= 2
    ensures HostKey(host + "/" + path) == host[2..]
  {
    var url := host + "/" + path;
    HostKeyWithoutScheme(url);
    assert SliceFrom(url, 2) == host[2..] + "/" + path;
    assert '/' !in host[2..] by {
      forall i | 0 <= i < |host| - 2 ensures host[2..][i] != '/' {
        assert host[2..][i] == host[i + 2];
      }
    }
    SlashAfter(host[2..], path);
  }
}
