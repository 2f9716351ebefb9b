/**
 * The staleness watchdog of src/metricWatchdog.ts: a wrapper around a labelled
 * gauge that remembers when each label set was last written and, on a timer,
 * removes from the gauge every label set not written within the timeout.
 *
 * The gauge is modelled by the map `sink` from label sets to values; the
 * label-set serialisation (JSON.stringify and JSON.parse) by a pair of
 * functions `key` and `parse` with `parse(key(l)) == l`; the clock by an
 * explicit `now` in milliseconds; the timer by calls of `Sweep`.
 */
module MetricWatchdog {

  /** The default timeout: six minutes, in milliseconds. */
  const SIX_MINUTES_IN_MS: int := 6 * 60 * 1000

  /** The period of the sweep timer, in milliseconds. */
  const WATCHDOG_CHECK_INTERVAL: int := 500

  /** A series last written at `lastSeen` is stale at `now` once more than `timeout` has passed. */
  predicate Expired(lastSeen: int, timeout: int, now: int)
  {
    lastSeen + timeout < now
  }

  // ---------------------------------------------------------------------------
  // The state changes, as functions of the two maps
  // ---------------------------------------------------------------------------

  /** The keys a sweep at `now` evicts. */
  function StaleKeys(lastSeen: map<string, int>, timeout: int, now: int): set<string>
  {
    set k | k in lastSeen && Expired(lastSeen[k], timeout, now)
  }

  /** The last-seen map after a sweep at `now`. */
  function SweptLastSeen(lastSeen: map<string, int>, timeout: int, now: int): map<string, int>
  {
    lastSeen - StaleKeys(lastSeen, timeout, now)
  }

  /** The gauge after a sweep at `now`: the label sets whose keys went stale are gone. */
  function SweptSink<L(==), V>(sink: map<L, V>, key: L -> string, lastSeen: map<string, int>, timeout: int, now: int): map<L, V>
  {
    map l | l in sink && key(l) !in StaleKeys(lastSeen, timeout, now) :: sink[l]
  }

  /**
   * The link between the two maps the wrapper keeps: every key with a
   * last-seen time is the key of the label set it parses back to, and that
   * label set has a value in the gauge. The gauge may hold further series,
   * written before it was wrapped, that the wrapper does not track.
   */
  ghost predicate Tracks<L, V>(lastSeen: map<string, int>, sink: map<L, V>, key: L -> string, parse: string -> L)
  {
    forall k :: k in lastSeen ==> key(parse(k)) == k && parse(k) in sink
  }

  /** A serialisation that its parser undoes. */
  ghost predicate RoundTrips<L(!new)>(key: L -> string, parse: string -> L)
  {
    forall l :: parse(key(l)) == l
  }

  // ---------------------------------------------------------------------------
  // The wrapper
  // ---------------------------------------------------------------------------

  class GaugeWatchdog<L(==,!new), V> {
    /** JSON.stringify of a label set. */
    const key: L -> string
    /** JSON.parse of a key. */
    const parse: string -> L
    /** How long a label set survives without a write, in milliseconds. */
    const timeout: int
    /** `lastSeenMap`: the time of the last write of each key. */
    var lastSeen: map<string, int>
    /** The wrapped gauge. */
    var sink: map<L, V>

    ghost predicate Valid()
      reads this
    {
      RoundTrips(key, parse) && Tracks(lastSeen, sink, key, parse)
    }

    /** Wraps `metric`, a gauge that may already hold series; the timeout defaults to six minutes. */
    constructor (metric: map<L, V>, key: L -> string, parse: string -> L, timeout: int := SIX_MINUTES_IN_MS)
      requires RoundTrips(key, parse)
      ensures Valid()
      ensures this.key == key && this.parse == parse && this.timeout == timeout
      ensures lastSeen == map[] && sink == metric
    {
      this.key := key;
      this.parse := parse;
      this.timeout := timeout;
      lastSeen := map[];
      sink := metric;
    }

    /** `set(labels, value)` at time `now`: stamps the key and writes the gauge. */
    method Set(labels: L, value: V, now: int)
      requires Valid()
      modifies this
      ensures Valid()
      ensures lastSeen == old(lastSeen)[key(labels) := now]
      ensures sink == old(sink)[labels := value]
    {
      lastSeen := lastSeen[key(labels) := now];
      sink := sink[labels := value];
    }

    /** `remove(labels)`: forgets the key and removes the label set from the gauge. */
    method Remove(labels: L)
      requires Valid()
      modifies this
      ensures Valid()
      ensures lastSeen == old(lastSeen) - {key(labels)}
      ensures sink == old(sink) - {labels}
    {
      lastSeen := lastSeen - {key(labels)};
      sink := sink - {labels};
    }

    /**
     * One tick of the sweep timer at time `now`: visits every key and, when
     * it has expired, deletes it and removes the label set it parses to from
     * the gauge.
     */
    method Sweep(now: int)
      requires Valid()
      modifies this
      ensures Valid()
      ensures lastSeen == SweptLastSeen(old(lastSeen), timeout, now)
      ensures sink == SweptSink(old(sink), key, old(lastSeen), timeout, now)
    {
      var pending := lastSeen.Keys;
      while pending != {}
        invariant pending <= old(lastSeen).Keys
        invariant lastSeen == old(lastSeen) - (StaleKeys(old(lastSeen), timeout, now) - pending)
        invariant sink == SweptSink(old(sink), key, old(lastSeen) - pending, timeout, now)
        invariant Valid()
        decreases pending
      {
        var k :| k in pending;
        if Expired(lastSeen[k], timeout, now) {
          lastSeen := lastSeen - {k};
          sink := sink - {parse(k)};
        }
        pending := pending - {k};
      }
    }
  }
}
