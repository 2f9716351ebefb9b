# WeatherFlow Tempest exporter core, in Dafny

This project models the two pieces of logic in a Prometheus exporter for the
WeatherFlow Tempest weather station. The rest of the exporter moves data
between a UDP socket and an HTTP metrics endpoint.

- **The datagram decoder** (`decodeEvent`, `src/weatherflow.ts`). A Tempest hub
  broadcasts JSON datagrams of six shapes: `evt_precip`, `evt_strike`,
  `rapid_wind`, `obs_st`, `device_status` and `hub_status`. The decoder does
  four things:
  - it names the positional array elements;
  - it maps the precipitation-type and radio-status codes through their
    lookup tables;
  - it unpacks the inverted `sensor_status` bit field and the comma-separated
    `reset_flags` string;
  - it rejects any other `type`.

  The model is pure: `WeatherFlow.Decode` and one function per branch, in
  `weatherflow.dfy`. The properties are in `weatherflow_properties.dfy`.
- **The gauge watchdog** (`withGaugeWatchdog`, `src/metricWatchdog.ts`). It
  wraps a labelled gauge. Each write records the time its label set was last
  seen. A 500 ms timer removes every label set not written for longer than the
  timeout, which defaults to six minutes.

  The model is imperative: the class `MetricWatchdog.GaugeWatchdog` holds the
  last-seen map and the gauge as `map` fields, and has the methods `Set`,
  `Remove` and `Sweep`. `Sweep` is the timer callback: one call is one tick.
  `Set` and `Remove` state their new maps as single map updates. `Sweep`'s
  loop is proved against the specification functions `SweptLastSeen` and
  `SweptSink`. All three keep the invariant `Valid()`: every tracked key parses
  back to its label set, and that label set is in the gauge. The model is in
  `metric_watchdog.dfy` and the properties in `metric_watchdog_properties.dfy`.

Modelling choices:

- JavaScript numbers are `real`s.
- The XOR in `device_status` first converts its operand with ToInt32
  (section 7.1.6 of ECMA-262): truncation toward zero, then reduction modulo
  2^32. This is `WeatherFlow.Int32Bits`, giving a `bv32`.
- `String.prototype.includes` is the recursive `WeatherFlow.Includes`, proved
  equal to "occurs as a substring".
- JSON.stringify and JSON.parse of a label set are two function parameters of
  the watchdog, `key` and `parse`, with the requirement `parse(key(l)) == l`.
- The wall clock is an explicit `now` argument, in milliseconds.

Where the TypeScript code reads past the end of an array, or indexes a lookup
table with an out-of-range code, it yields `undefined` (or throws on a missing
`obs` row). The model returns an explicit error in those cases:
`MalformedPayload` for a short array and `CodeOutOfRange` for a code outside
its table. Every well-formed datagram decodes exactly as the code does. Two
places where the code differs from the documented design are followed as
written:

- only the first `obs` row of an `obs_st` datagram is decoded;
- the `sensor_status` inversion is always applied.

## Model

| member | source | states |
|---|---|---|
| WeatherFlow.ArrayIndex | src/weatherflow.ts:326-328 | A JavaScript table lookup `table[x]` hits slot k exactly when `x` is the whole number k below the table length; otherwise it yields `undefined` (None). |
| WeatherFlow.PrecipitationTypeOf | src/weatherflow.ts:326-328 | The precipitation type is t exactly when the code is t's code (0 none, 1 rain, 2 hail, 3 error), or the code is null and t is error. Any other code gives `undefined`. |
| WeatherFlow.RadioStatusOf | src/weatherflow.ts:406 | The radio status is s exactly when the code is s's code (0 off, 1 on, 2 null, 3 active). Any other code gives `undefined`. |
| WeatherFlow.Trunc | src/weatherflow.ts:343 | The integer part that ToInt32 takes: the whole number next to x on the side of zero, within 1 of x. |
| WeatherFlow.SensorStatusOfBits | src/weatherflow.ts:343-365 | After the XOR with 0b111111111, each of the nine failure flags is set exactly when its bit of the hub's pattern is clear. `sensors_ok` holds exactly when all nine bits are set, that is, exactly when no failure flag is set. |
| WeatherFlow.DecodeSensorStatus | src/weatherflow.ts:343-365 | The same facts, about the ToInt32 bits of the raw `sensor_status` number. |
| WeatherFlow.Includes | src/weatherflow.ts:392-398 | `s.includes(t)` holds exactly when t occurs in s at some position. |
| WeatherFlow.DecodeResetFlags | src/weatherflow.ts:391-399 | Each of the seven reset flags is set exactly when its three-letter token occurs in `reset_flags`. |
| WeatherFlow.DecodeObservationRow | src/weatherflow.ts:285-333 | A row shorter than 18 fields is malformed. A long-enough row decodes exactly when its precipitation code is in the table. Fields 0-12 and 14-17 are copied in order, and field 13 becomes its precipitation type. For a non-null code, re-encoding gives back the row's first 18 fields. |
| WeatherFlow.DecodeRainStart | src/weatherflow.ts:253-261 | Succeeds exactly when `evt` has an element. It copies `serial_number` and `hub_sn`, and the timestamp is `evt[0]`. |
| WeatherFlow.DecodeLightningStrike | src/weatherflow.ts:262-272 | Succeeds exactly when `evt` has three elements. Time, distance and energy are `evt[0..3]`, in that order. |
| WeatherFlow.DecodeRapidWind | src/weatherflow.ts:273-283 | Succeeds exactly when `ob` has three elements. Time, speed and direction are `ob[0..3]`, in that order. |
| WeatherFlow.DecodeTempestObservation | src/weatherflow.ts:284-336 | An empty `obs` is malformed. Otherwise the result succeeds exactly when the first row decodes, and holds exactly one observation: that row's decoding. It also copies `firmware_revision`. |
| WeatherFlow.DecodeDeviceStatus | src/weatherflow.ts:337-369 | Never fails. It copies the seven plain fields. The sensor status is the unpacked, inverted bit field. `debug_enabled` holds exactly when `debug === 1`. |
| WeatherFlow.DecodeHubStatus | src/weatherflow.ts:370-411 | Succeeds exactly when `radio_stats` has five elements and its code is in the table. It copies the plain fields, decodes the reset flags, and names `radio_stats` positions 0, 1, 2 and 4, with position 3 the code of the status. |
| WeatherFlow.Decode | src/weatherflow.ts:251-415 | Each known `type` gives its branch decoder's result, wrapped as a decoded event. Decoding succeeds exactly on well-formed datagrams: documented arity and codes in their tables. A decoded event keeps the wire event's `type`, `serial_number` and `hub_sn`. The result is `UnsupportedEventType` exactly when the type is none of the six. A `device_status` always decodes. |
| WeatherFlowProperties.PrecipitationCodes | src/weatherflow.ts:326-328 | Codes 0-3 give none, rain, hail and error. Null gives error. 4, 1.5 and -1 give `undefined`. |
| WeatherFlowProperties.RadioStatusCodes | src/weatherflow.ts:406 | Codes 0-3 give off, on, null and active. 4 gives `undefined`. |
| WeatherFlowProperties.SensorStatusOfZero | src/weatherflow.ts:343-365 | A raw status of 0 reports all nine sensors failed and `sensors_ok` false. |
| WeatherFlowProperties.SensorStatusOfOne | src/weatherflow.ts:343-365 | A raw status of 1 clears only `lightning_sensor_failed`. |
| WeatherFlowProperties.SensorStatusAllSet | src/weatherflow.ts:343-365 | A raw status of 511 is all sensors OK. Bits above the ninth are ignored (1023 decodes like 511). |
| WeatherFlowProperties.DecodedSensorStatusIsConsistent | src/weatherflow.ts:356-365 | Every decoded sensor status has `sensors_ok` exactly when no failure flag is set. |
| WeatherFlowProperties.SensorBitsRoundTrip | src/weatherflow.ts:343-365 | Unpacking the bit pattern that encodes a consistent sensor status gives that status back. |
| WeatherFlowProperties.Int32BitsOfNegative | src/weatherflow.ts:343 | ToInt32 of -1 has all 32 bits set: negative numbers wrap to the top of the range. |
| WeatherFlowProperties.Int32BitsTruncates | src/weatherflow.ts:343 | ToInt32 truncates fractions toward zero: -1.5 reads as -1 and 2.75 as 2. |
| WeatherFlowProperties.Int32BitsWraps | src/weatherflow.ts:343 | ToInt32 reduces modulo 2^32: 2^32 + 1 reads as 1. |
| WeatherFlowProperties.SensorStatusOfMinusOne | src/weatherflow.ts:343-365 | A raw status of -1 has every bit set, so it decodes as all sensors OK. |
| WeatherFlowProperties.Int32BitsOfWholeNumber | src/weatherflow.ts:343 | ToInt32 of a whole number in [0, 2^32) is that number's bit pattern. |
| WeatherFlowProperties.SensorStatusRoundTrip | src/weatherflow.ts:343-365 | Decoding the number that encodes a consistent sensor status gives that status back. |
| WeatherFlowProperties.OccursInCommaJoin | src/weatherflow.ts:392-398 | A comma-free token occurs in `a + "," + b` exactly when it occurs in a or in b. |
| WeatherFlowProperties.OccursInJoin | src/weatherflow.ts:392-398 | A comma-free token occurs in a comma-joined list exactly when it occurs in one of its elements. |
| WeatherFlowProperties.TokenInJoin | src/weatherflow.ts:392-398 | A three-letter token occurs in a comma-joined list of three-letter tokens exactly when it is one of them. |
| WeatherFlowProperties.ResetFlagsOfTokens | src/weatherflow.ts:391-399 | For a comma-joined list of three-letter tokens, each flag is set exactly when its token is in the list. |
| WeatherFlowProperties.ResetFlagsExample | src/weatherflow.ts:391-399 | `"BOR,SFT"` sets exactly BOR and SFT. |
| WeatherFlowProperties.ResetFlagsIgnoreUnknownToken | src/weatherflow.ts:391-399 | An unknown token in the list changes no flag. |
| WeatherFlowProperties.SelectedMembership | src/weatherflow.ts:391-399 | A token is in the selected sub-list exactly when it sits at a selected position. |
| WeatherFlowProperties.ResetFlagsRoundTrip | src/weatherflow.ts:391-399 | Decoding the comma-joined list of a flag record's set tokens gives that record back. |
| WeatherFlowProperties.ObservationRoundTrip | src/weatherflow.ts:285-333 | Decoding the row of an observation gives that observation back. |
| WeatherFlowProperties.DecodeYieldsDecodable | src/weatherflow.ts:251-415 | Every decoded event has exactly one observation (for `obs_st`) and a consistent sensor status (for `device_status`). |
| WeatherFlowProperties.EventRoundTrip | src/weatherflow.ts:251-415 | Re-encoding any such decoded event as its wire event, then decoding, gives it back. |
| WeatherFlowProperties.DecodeEncodeDecode | src/weatherflow.ts:251-415 | Decoding is stable: decode, re-encode and decode again gives the first result. |
| WeatherFlowProperties.PositionalRoundTrip | src/weatherflow.ts:253-336 | For the four positional shapes, an exactly-sized wire event decodes, and its decoding re-encodes to that same wire event. For `obs_st` this needs a single row whose precipitation code is non-null and in the table. |
| WeatherFlowProperties.UnknownTypeRejected | src/weatherflow.ts:412-413 | Any type other than the six is rejected with an error that names it. |
| MetricWatchdog.GaugeWatchdog.constructor | src/metricWatchdog.ts:7-11 | Wraps any gauge, which may already hold series. The wrapper starts with an empty last-seen map, so it tracks none of those series. It keeps its key and parse functions, and the timeout defaults to six minutes. |
| MetricWatchdog.GaugeWatchdog.Set | src/metricWatchdog.ts:23-26 | Stamps the label set's key with `now` and writes the value. Nothing else changes, and `Valid()` is kept. |
| MetricWatchdog.GaugeWatchdog.Remove | src/metricWatchdog.ts:27-30 | Deletes the key and removes the label set. Nothing else changes, and `Valid()` is kept. |
| MetricWatchdog.GaugeWatchdog.Sweep | src/metricWatchdog.ts:13-20 | The loop over the keys leaves exactly the unexpired keys with their times. The gauge loses exactly the label sets of expired keys; untracked series stay. `Valid()` is kept. |
| MetricWatchdogProperties.Constants | src/metricWatchdog.ts:4-5 | The default timeout is 360000 ms and the sweep period 500 ms. |
| MetricWatchdogProperties.TracksAfterSet | src/metricWatchdog.ts:23-26 | A write keeps every tracked key parsing back to a label set in the gauge. |
| MetricWatchdogProperties.TracksAfterRemove | src/metricWatchdog.ts:27-30 | A removal keeps every tracked key parsing back to a label set in the gauge. |
| MetricWatchdogProperties.TracksAfterSweep | src/metricWatchdog.ts:13-20 | A sweep keeps every tracked key parsing back to a label set in the gauge. |
| MetricWatchdogProperties.KeysHaveGaugeValues | src/metricWatchdog.ts:15-17 | Every key the sweep may evict parses to a label set the gauge holds. |
| MetricWatchdogProperties.SweepKeepsFresh | src/metricWatchdog.ts:14-16 | A key survives a sweep, with its time, exactly when it has not expired. |
| MetricWatchdogProperties.SweepKeepsFreshValues | src/metricWatchdog.ts:14-17 | A label set keeps its gauge value through a sweep exactly when its key is untracked or has not expired. A series already in the gauge when it was wrapped, and never written since, is never removed. |
| MetricWatchdogProperties.WriteLivesForTimeout | src/metricWatchdog.ts:13-26 | After a write at t, a sweep at `now` keeps the series, with its value, exactly when `now <= t + timeout`. |
| MetricWatchdogProperties.RewriteRestartsClock | src/metricWatchdog.ts:13-26 | A later write restarts the clock: a key that the first write alone would lose is kept. |
| MetricWatchdogProperties.SweepIdempotent | src/metricWatchdog.ts:13-20 | A second sweep at the same time changes neither map. |
| MetricWatchdogProperties.SetThenRemoveLeavesNoTrace | src/metricWatchdog.ts:23-30 | `set` then `remove` of a label set leaves both maps as `remove` alone would. |
| MetricWatchdogProperties.EvictingSweep | src/metricWatchdog.ts:13-20 | With sweeps every `interval` ms from `start`, the first sweep that sees a key expired runs no later than one interval after the key's timeout ends. |
| MetricWatchdogProperties.DefaultEvictionBound | src/metricWatchdog.ts:4-5 | With the default constants, a series is gone at most 360500 ms after its last write. |

## Left out

- The UDP socket, the JSON.parse of each datagram, the Prometheus registry and HTTP endpoint, and the environment configuration (`src/index.ts`, `src/env.ts`) are I/O and wiring. They are not part of this model.
- The gauge itself (prom-client) is a `map` from label sets to values. Registry behaviour, label validation and the exposition format are not modelled.
- Timers and concurrency: `setInterval` becomes explicit calls of `Sweep`, and a sweep runs atomically between writes.
- MetricWatchdog.GaugeWatchdog.Sweep reads the clock once per sweep (`now`). The code evaluates `new Date()` once per key, so a sweep lasting across a millisecond boundary may evict a little more than the model says.
- MetricWatchdog.GaugeWatchdog.constructor: JSON.stringify and JSON.parse are abstract functions with `parse(key(l)) == l`. Key-order sensitivity of JSON.stringify is not captured: two label objects with the same entries in a different order get different keys but name one gauge series.
- Timestamps are whole milliseconds. `Date` objects and their range are not modelled.
- WeatherFlow.Int32Bits has no general contract. Its defining conversion (truncate, reduce modulo 2^32, reinterpret as 32 bits) is stated only through concrete negative, fractional and wrapped examples and the whole-number lemma. The solver cannot relate integer-to-bit-vector conversion to arithmetic in general.
- JavaScript numbers are exact reals. NaN, the infinities, negative zero and floating-point rounding are not modelled. The wire format carries finite numbers.
- WeatherFlow.DecodeRainStart, WeatherFlow.DecodeLightningStrike, WeatherFlow.DecodeRapidWind, WeatherFlow.DecodeObservationRow and WeatherFlow.DecodeHubStatus: an array shorter than its documented shape (`evt`, `ob`, an `obs` row, `radio_stats`) is a `MalformedPayload` error. The code would instead produce fields holding `undefined`.
- WeatherFlow.DecodeTempestObservation: an empty `obs` is a `MalformedPayload` error. The code would throw a TypeError when destructuring `undefined`.
- WeatherFlow.PrecipitationTypeOf and WeatherFlow.RadioStatusOf: a code outside the table is a `CodeOutOfRange` error. The code would produce `undefined`, despite its non-null assertion.
- WeatherFlow.Decode: a datagram whose fields do not have the documented JavaScript types (strings where numbers belong, missing keys) is not modelled. The wire event datatypes carry the documented types.
- WeatherFlow.DecodeTempestObservation decodes only the first row of `obs`, as the code does. Further rows are dropped, although the output type holds a list.
- WeatherFlow.DecodeHubStatus: `fs`, `mqtt_stats` and `radio_stats` are sequences. Their fixed tuple lengths are not enforced beyond the five `radio_stats` positions the decoder reads.
