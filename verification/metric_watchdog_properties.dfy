/**
 * What the watchdog of src/metricWatchdog.ts promises across calls: the two
 * maps stay in step, a write keeps a series alive for exactly the timeout, a
 * second sweep at the same time does nothing, and a periodic sweep removes a
 * series within one interval of its timeout.
 */
module MetricWatchdogProperties {
  import opened MetricWatchdog

  /** The default timeout is 360000 ms, well above the 500 ms sweep period. */
  lemma Constants()
    ensures SIX_MINUTES_IN_MS == 360000 && WATCHDOG_CHECK_INTERVAL == 500
    ensures WATCHDOG_CHECK_INTERVAL < SIX_MINUTES_IN_MS
  {
  }

  // ---------------------------------------------------------------------------
  // The two maps stay in step
  // ---------------------------------------------------------------------------

  lemma TracksAfterSet<L(!new), V>(lastSeen: map<string, int>, sink: map<L, V>,
                                   key: L -> string, parse: string -> L, labels: L, value: V, now: int)
    requires RoundTrips(key, parse) && Tracks(lastSeen, sink, key, parse)
    ensures Tracks(lastSeen[key(labels) := now], sink[labels := value], key, parse)
  {
  }

  lemma TracksAfterRemove<L(!new), V>(lastSeen: map<string, int>, sink: map<L, V>,
                                      key: L -> string, parse: string -> L, labels: L)
    requires RoundTrips(key, parse) && Tracks(lastSeen, sink, key, parse)
    ensures Tracks(lastSeen - {key(labels)}, sink - {labels}, key, parse)
  {
  }

  lemma TracksAfterSweep<L(!new), V>(lastSeen: map<string, int>, sink: map<L, V>,
                                     key: L -> string, parse: string -> L, timeout: int, now: int)
    requires RoundTrips(key, parse) && Tracks(lastSeen, sink, key, parse)
    ensures Tracks(SweptLastSeen(lastSeen, timeout, now), SweptSink(sink, key, lastSeen, timeout, now), key, parse)
  {
  }

  /** Every key with a last-seen time has a value in the gauge under the label set it parses to. */
  lemma KeysHaveGaugeValues<L(!new), V>(lastSeen: map<string, int>, sink: map<L, V>,
                                        key: L -> string, parse: string -> L, k: string)
    requires Tracks(lastSeen, sink, key, parse) && k in lastSeen
    ensures parse(k) in sink
  {
  }

  // ---------------------------------------------------------------------------
  // What a sweep evicts
  // ---------------------------------------------------------------------------

  /** A sweep keeps exactly the keys that have not expired, with their times. */
  lemma SweepKeepsFresh(lastSeen: map<string, int>, timeout: int, now: int, k: string)
    ensures k in SweptLastSeen(lastSeen, timeout, now) <==> k in lastSeen && !Expired(lastSeen[k], timeout, now)
    ensures k in SweptLastSeen(lastSeen, timeout, now) ==> SweptLastSeen(lastSeen, timeout, now)[k] == lastSeen[k]
  {
  }

  /**
   * A sweep keeps the gauge value of exactly the label sets whose keys have
   * not expired, and of every series the wrapper does not track: a series
   * already in the gauge when it was wrapped is never removed.
   */
  lemma SweepKeepsFreshValues<L(!new), V>(lastSeen: map<string, int>, sink: map<L, V>,
                                          key: L -> string, parse: string -> L, timeout: int, now: int, l: L)
    requires Tracks(lastSeen, sink, key, parse)
    ensures l in SweptSink(sink, key, lastSeen, timeout, now) <==>
      l in sink && (key(l) in lastSeen ==> !Expired(lastSeen[key(l)], timeout, now))
    ensures l in SweptSink(sink, key, lastSeen, timeout, now) ==> SweptSink(sink, key, lastSeen, timeout, now)[l] == sink[l]
  {
  }

  /**
   * After a write at `t`, a sweep at `now` keeps the key exactly when
   * `now <= t + timeout`: the test is strict, so the series lives through the
   * whole timeout and goes at the first sweep after it.
   */
  lemma WriteLivesForTimeout<L(!new), V>(lastSeen: map<string, int>, sink: map<L, V>,
                                         key: L -> string, labels: L, value: V, t: int, timeout: int, now: int)
    ensures key(labels) in SweptLastSeen(lastSeen[key(labels) := t], timeout, now) <==> now <= t + timeout
    ensures labels in SweptSink(sink[labels := value], key, lastSeen[key(labels) := t], timeout, now) <==> now <= t + timeout
    ensures now <= t + timeout ==> SweptSink(sink[labels := value], key, lastSeen[key(labels) := t], timeout, now)[labels] == value
  {
    var m := lastSeen[key(labels) := t];
    assert key(labels) in StaleKeys(m, timeout, now) <==> t + timeout < now;
  }

  /** A second write restarts the clock: only the latest write counts. */
  lemma RewriteRestartsClock(lastSeen: map<string, int>, k: string, t1: int, t2: int, timeout: int, now: int)
    requires t1 <= t2 && t1 + timeout < now <= t2 + timeout
    ensures k !in SweptLastSeen(lastSeen[k := t1], timeout, now)
    ensures k in SweptLastSeen(lastSeen[k := t1][k := t2], timeout, now)
  {
    assert k in StaleKeys(lastSeen[k := t1], timeout, now);
    assert lastSeen[k := t1][k := t2] == lastSeen[k := t2];
  }

  /** A second sweep at the same time changes neither map. */
  lemma SweepIdempotent<L(!new), V>(lastSeen: map<string, int>, sink: map<L, V>,
                                    key: L -> string, timeout: int, now: int)
    ensures SweptLastSeen(SweptLastSeen(lastSeen, timeout, now), timeout, now) == SweptLastSeen(lastSeen, timeout, now)
    ensures SweptSink(SweptSink(sink, key, lastSeen, timeout, now), key, SweptLastSeen(lastSeen, timeout, now), timeout, now)
         == SweptSink(sink, key, lastSeen, timeout, now)
  {
    var m := SweptLastSeen(lastSeen, timeout, now);
    assert StaleKeys(m, timeout, now) == {};
  }

  /** `set` then `remove` of one label set leaves both maps as `remove` alone would. */
  lemma SetThenRemoveLeavesNoTrace<L(!new), V>(lastSeen: map<string, int>, sink: map<L, V>,
                                              key: L -> string, labels: L, value: V, now: int)
    ensures lastSeen[key(labels) := now] - {key(labels)} == lastSeen - {key(labels)}
    ensures sink[labels := value] - {labels} == sink - {labels}
    ensures key(labels) !in lastSeen[key(labels) := now] - {key(labels)}
  {
  }

  // ---------------------------------------------------------------------------
  // Eviction latency of the periodic sweep
  // ---------------------------------------------------------------------------

  /**
   * With sweeps at `start`, `start + interval`, `start + 2 * interval`, ...,
   * a key last written at `t` (expiring no earlier than `start`) is removed by
   * sweep number `j`: that sweep sees it expired, the one before did not, and
   * it runs at most one interval after the timeout has passed.
   */
  function EvictingSweep(t: int, timeout: int, start: int, interval: int): (j: nat)
    requires interval > 0 && start <= t + timeout
    ensures Expired(t, timeout, start + j * interval)
    ensures j > 0 && !Expired(t, timeout, start + (j - 1) * interval)
    ensures start + j * interval <= t + timeout + interval
  {
    var x := t + timeout - start;
    var q, r := x / interval, x % interval;
    assert x == q * interval + r && 0 <= r < interval;
    assert start + (q + 1) * interval == t + timeout - r + interval by {
      assert (q + 1) * interval == q * interval + interval;
    }
    q + 1
  }

  /** With the default constants, a series goes at most 360500 ms after its last write. */
  lemma DefaultEvictionBound(t: int, start: int)
    requires start <= t + SIX_MINUTES_IN_MS
    ensures var j := EvictingSweep(t, SIX_MINUTES_IN_MS, start, WATCHDOG_CHECK_INTERVAL);
      Expired(t, SIX_MINUTES_IN_MS, start + j * WATCHDOG_CHECK_INTERVAL) &&
      start + j * WATCHDOG_CHECK_INTERVAL <= t + 360500
  {
  }
}
