/**
 * What the decoder of src/weatherflow.ts promises beyond its per-branch
 * contracts: the code tables and the flag fields on concrete inputs, how
 * `reset_flags` behaves on a comma-joined token list, and that decoding is
 * undone by a positional re-encoding of the decoded event.
 */
module WeatherFlowProperties {
  import opened Wrappers
  import opened WeatherFlow

  // ---------------------------------------------------------------------------
  // The code tables
  // ---------------------------------------------------------------------------

  /** Codes 0 to 3 name none, rain, hail and error; null reads as error; anything else is undefined. */
  lemma PrecipitationCodes()
    ensures PrecipitationTypeOf(Some(0.0)) == Some(NoPrecipitation)
    ensures PrecipitationTypeOf(Some(1.0)) == Some(Rain)
    ensures PrecipitationTypeOf(Some(2.0)) == Some(Hail)
    ensures PrecipitationTypeOf(Some(3.0)) == Some(Error)
    ensures PrecipitationTypeOf(None) == Some(Error)
    ensures PrecipitationTypeOf(Some(4.0)) == None
    ensures PrecipitationTypeOf(Some(1.5)) == None
    ensures PrecipitationTypeOf(Some(-1.0)) == None
  {
    assert PrecipitationCode(Error) == 3;
  }

  /** Codes 0 to 3 name off, on, null and active; anything else is undefined. */
  lemma RadioStatusCodes()
    ensures RadioStatusOf(0.0) == Some(Some(Off))
    ensures RadioStatusOf(1.0) == Some(Some(On))
    ensures RadioStatusOf(2.0) == Some(None)
    ensures RadioStatusOf(3.0) == Some(Some(Active))
    ensures RadioStatusOf(4.0) == None
  {
    assert RadioCode(None) == 2;
  }

  // ---------------------------------------------------------------------------
  // The sensor status bit field
  // ---------------------------------------------------------------------------

  /** A raw field of 0 is the inverted "all clear": every failure flag is set and the sensors are not OK. */
  lemma SensorStatusOfZero()
    ensures DecodeSensorStatus(0.0) == SensorStatus(false, true, true, true, true, true, true, true, true, true)
  {
    assert Int32Bits(0.0) == 0;
  }

  /** A raw field of 1 clears only the lightning-failed flag. */
  lemma SensorStatusOfOne()
    ensures DecodeSensorStatus(1.0) == SensorStatus(false, false, true, true, true, true, true, true, true, true)
  {
    assert Int32Bits(1.0) == 1;
  }

  /** A raw field with all nine bits set is the only way to read "sensors OK", whatever the higher bits hold. */
  lemma SensorStatusAllSet()
    ensures DecodeSensorStatus(511.0) == SensorStatus(true, false, false, false, false, false, false, false, false, false)
    ensures DecodeSensorStatus(1023.0) == DecodeSensorStatus(511.0)
  {
    Int32BitsOfWholeNumber(511);
    Int32BitsOfWholeNumber(1023);
    assert SensorStatusOfBits(1023) == SensorStatusOfBits(511);
  }

  /** A status the decoder can produce: the sensors are OK exactly when no failure flag is set. */
  predicate ConsistentSensorStatus(s: SensorStatus)
  {
    s.sensors_ok <==> true !in s.Failures()
  }

  /** The raw bits a device reports for a status: bit i is set exactly when failure flag i is clear. */
  function EncodeSensorBits(s: SensorStatus): bv32
  {
    (if s.lightning_sensor_failed then 0 else 0x001) |
    (if s.lightning_sensor_noise then 0 else 0x002) |
    (if s.lightning_sensor_disturbance then 0 else 0x004) |
    (if s.pressure_sensor_failed then 0 else 0x008) |
    (if s.temperature_sensor_failed then 0 else 0x010) |
    (if s.humidity_sensor_failed then 0 else 0x020) |
    (if s.wind_sensor_failed then 0 else 0x040) |
    (if s.precipitation_sensor_failed then 0 else 0x080) |
    (if s.light_uv_sensor_failed then 0 else 0x100)
  }

  /** The raw bits of a status, as the number on the wire. */
  function EncodeSensorStatus(s: SensorStatus): Number
  {
    (EncodeSensorBits(s) as int) as real
  }

  /** Every status the decoder can produce is consistent. */
  lemma DecodedSensorStatusIsConsistent(raw: Number)
    ensures ConsistentSensorStatus(DecodeSensorStatus(raw))
  {
  }

  /** Unpacking the bits of a consistent status gives the status back. */
  lemma SensorBitsRoundTrip(s: SensorStatus)
    requires ConsistentSensorStatus(s)
    ensures SensorStatusOfBits(EncodeSensorBits(s)) == s
  {
  }

  /** ToInt32 of a negative whole number wraps it to the top of the 32-bit range: -1 has every bit set. */
  lemma Int32BitsOfNegative()
    ensures Int32Bits(-1.0) == 0xFFFF_FFFF
  {
    assert Trunc(-1.0) == -1;
    assert -1 % 0x1_0000_0000 == 0xFFFF_FFFF;
  }

  /** ToInt32 truncates a fraction toward zero, on both sides of zero. */
  lemma Int32BitsTruncates()
    ensures Int32Bits(-1.5) == 0xFFFF_FFFF
    ensures Int32Bits(2.75) == 2
  {
    assert (1.5).Floor == 1 && Trunc(-1.5) == -1;
    assert Int32Bits(-1.5) == Int32Bits(-1.0);
    assert Trunc(2.75) == 2;
  }

  /** ToInt32 reduces a number of 2^32 or more modulo 2^32. */
  lemma Int32BitsWraps()
    ensures Int32Bits(4294967297.0) == 1
  {
  }

  /** A negative raw status of -1 has every bit set, so it reads as all sensors OK. */
  lemma SensorStatusOfMinusOne()
    ensures DecodeSensorStatus(-1.0) == SensorStatus(true, false, false, false, false, false, false, false, false, false)
  {
    Int32BitsOfNegative();
  }

  /** A whole number below 2^32 keeps its bits through ToInt32. */
  lemma Int32BitsOfWholeNumber(b: bv32)
    ensures Int32Bits((b as int) as real) == b
  {
    var n := b as int;
    BitsAsIntInRange(b);
    TruncOfWholeNumber(n);
    BitsAsIntAsBits(b);
  }

  lemma BitsAsIntInRange(b: bv32)
    ensures 0 <= b as int < 0x1_0000_0000
  {
  }

  lemma TruncOfWholeNumber(n: int)
    ensures Trunc(n as real) == n
  {
  }

  lemma BitsAsIntAsBits(b: bv32)
    ensures (b as int) as bv32 == b
  {
  }

  /** Decoding the wire number of a consistent status gives the status back. */
  lemma SensorStatusRoundTrip(s: SensorStatus)
    requires ConsistentSensorStatus(s)
    ensures DecodeSensorStatus(EncodeSensorStatus(s)) == s
  {
    Int32BitsOfWholeNumber(EncodeSensorBits(s));
    SensorBitsRoundTrip(s);
  }

  // ---------------------------------------------------------------------------
  // The reset flags string
  // ---------------------------------------------------------------------------

  /** The tokens joined with commas, as `Array.prototype.join(",")` builds the field. */
  function Join(ts: seq<string>): string
  {
    if |ts| == 0 then ""
    else if |ts| == 1 then ts[0]
    else ts[0] + "," + Join(ts[1..])
  }

  /** An occurrence of a comma-free string does not cover a comma. */
  lemma WindowAvoidsComma(t: string, s: string, i: int, c: int)
    requires OccursAt(t, s, i) && ',' !in t
    requires 0 <= c < |s| && s[c] == ','
    ensures c < i || i + |t| <= c
  {
    assert forall k :: i <= k < i + |t| ==> s[k] == t[k - i];
  }

  /** A comma-free string occurs in `a + "," + b` exactly when it occurs in `a` or in `b`. */
  lemma {:induction false} OccursInCommaJoin(a: string, b: string, t: string)
    requires |t| > 0 && ',' !in t
    ensures OccursIn(t, a + "," + b) <==> OccursIn(t, a) || OccursIn(t, b)
  {
    var s := a + "," + b;
    var n := |t|;
    assert s[|a| + 1..] == b;
    if OccursIn(t, s) {
      var i :| OccursAt(t, s, i);
      WindowAvoidsComma(t, s, i, |a|);
      if i + n <= |a| {
        assert s[i..i + n] == a[i..i + n];
        assert OccursAt(t, a, i);
      } else if i >= |a| + 1 {
        var j := i - |a| - 1;
        assert s[i..i + n] == s[|a| + 1..][j..j + n];
        assert OccursAt(t, b, j);
      }
    }
    if OccursIn(t, a) {
      var i :| OccursAt(t, a, i);
      assert s[i..i + n] == a[i..i + n];
      assert OccursAt(t, s, i);
    }
    if OccursIn(t, b) {
      var j :| OccursAt(t, b, j);
      var i := j + |a| + 1;
      assert s[i..i + n] == s[|a| + 1..][j..j + n];
      assert OccursAt(t, s, i);
    }
  }

  /** A comma-free string occurs in a comma-joined list exactly when it occurs in one of its tokens. */
  lemma {:induction false} OccursInJoin(ts: seq<string>, t: string)
    requires |t| > 0 && ',' !in t
    ensures OccursIn(t, Join(ts)) <==> exists k :: 0 <= k < |ts| && OccursIn(t, ts[k])
  {
    if |ts| == 0 {
      assert !OccursIn(t, "");
    } else if |ts| == 1 {
      assert Join(ts) == ts[0];
    } else {
      OccursInCommaJoin(ts[0], Join(ts[1..]), t);
      OccursInJoin(ts[1..], t);
      if exists k :: 1 <= k < |ts| && OccursIn(t, ts[k]) {
        var k :| 1 <= k < |ts| && OccursIn(t, ts[k]);
        assert ts[1..][k - 1] == ts[k];
      }
      if exists k :: 0 <= k < |ts| - 1 && OccursIn(t, ts[1..][k]) {
        var k :| 0 <= k < |ts| - 1 && OccursIn(t, ts[1..][k]);
        assert ts[k + 1] == ts[1..][k];
      }
    }
  }

  /** Between strings of one length, occurrence is equality. */
  lemma OccursInSameLength(t: string, s: string)
    requires |t| == |s|
    ensures OccursIn(t, s) <==> t == s
  {
    if t == s {
      assert OccursAt(t, s, 0);
    }
    if OccursIn(t, s) {
      var i :| OccursAt(t, s, i);
      assert i == 0;
    }
  }

  /** A three-letter flag token occurs in a list of three-character tokens exactly when it is one of them. */
  lemma TokenInJoin(ts: seq<string>, t: string)
    requires forall k :: 0 <= k < |ts| ==> |ts[k]| == 3
    requires |t| == 3 && ',' !in t
    ensures OccursIn(t, Join(ts)) <==> t in ts
  {
    OccursInJoin(ts, t);
    forall k | 0 <= k < |ts|
      ensures OccursIn(t, ts[k]) <==> t == ts[k]
    {
      OccursInSameLength(t, ts[k]);
    }
  }

  /**
   * On a comma-joined list of three-character tokens, each flag is set exactly
   * when its token is in the list; tokens that name no flag are ignored.
   */
  lemma ResetFlagsOfTokens(ts: seq<string>)
    requires forall k :: 0 <= k < |ts| ==> |ts[k]| == 3
    ensures DecodeResetFlags(Join(ts)) ==
      ResetFlags("BOR" in ts, "PIN" in ts, "POR" in ts, "SFT" in ts, "WDG" in ts, "WWD" in ts, "LPW" in ts)
  {
    TokenInJoin(ts, "BOR");
    TokenInJoin(ts, "PIN");
    TokenInJoin(ts, "POR");
    TokenInJoin(ts, "SFT");
    TokenInJoin(ts, "WDG");
    TokenInJoin(ts, "WWD");
    TokenInJoin(ts, "LPW");
  }

  /** "BOR,SFT" sets BOR and SFT only. */
  lemma ResetFlagsExample()
    ensures DecodeResetFlags("BOR,SFT") == ResetFlags(true, false, false, true, false, false, false)
  {
    var ts := ["BOR", "SFT"];
    assert Join(ts) == "BOR,SFT";
    ResetFlagsOfTokens(ts);
    assert "BOR" in ts && "SFT" in ts;
    assert "PIN" !in ts && "POR" !in ts && "WDG" !in ts && "WWD" !in ts && "LPW" !in ts;
  }

  /** An undocumented token among the documented ones changes no flag. */
  lemma ResetFlagsIgnoreUnknownToken()
    ensures DecodeResetFlags("BOR,XYZ,SFT") == ResetFlags(true, false, false, true, false, false, false)
  {
    var ts := ["BOR", "XYZ", "SFT"];
    assert Join(ts) == "BOR,XYZ,SFT";
    ResetFlagsOfTokens(ts);
    assert "BOR" in ts && "SFT" in ts;
    assert "PIN" !in ts && "POR" !in ts && "WDG" !in ts && "WWD" !in ts && "LPW" !in ts;
  }

  /** The seven flag tokens, in declaration order. */
  const ResetFlagTokens: seq<string> := ["BOR", "PIN", "POR", "SFT", "WDG", "WWD", "LPW"]

  /** The seven flags, in declaration order. */
  function FlagList(f: ResetFlags): seq<bool>
  {
    [f.BOR, f.PIN, f.POR, f.SFT, f.WDG, f.WWD, f.LPW]
  }

  /** The elements of `ts` whose flag in `bs` is set, in order. */
  function Selected(ts: seq<string>, bs: seq<bool>): seq<string>
    requires |ts| == |bs|
  {
    if |ts| == 0 then []
    else (if bs[0] then [ts[0]] else []) + Selected(ts[1..], bs[1..])
  }

  /** A string is selected exactly when it sits at a position whose flag is set. */
  lemma {:induction false} SelectedMembership(ts: seq<string>, bs: seq<bool>, t: string)
    requires |ts| == |bs|
    ensures t in Selected(ts, bs) <==> exists k :: 0 <= k < |ts| && ts[k] == t && bs[k]
  {
    if |ts| > 0 {
      SelectedMembership(ts[1..], bs[1..], t);
      if exists k :: 1 <= k < |ts| && ts[k] == t && bs[k] {
        var k :| 1 <= k < |ts| && ts[k] == t && bs[k];
        assert ts[1..][k - 1] == t && bs[1..][k - 1];
      }
      if exists k :: 0 <= k < |ts| - 1 && ts[1..][k] == t && bs[1..][k] {
        var k :| 0 <= k < |ts| - 1 && ts[1..][k] == t && bs[1..][k];
        assert ts[k + 1] == t && bs[k + 1];
      }
    }
  }

  /** The tokens of the set flags, in declaration order. */
  function ResetTokens(f: ResetFlags): seq<string>
  {
    Selected(ResetFlagTokens, FlagList(f))
  }

  /** The `reset_flags` string a hub sends for a set of reset causes. */
  function EncodeResetFlags(f: ResetFlags): string
  {
    Join(ResetTokens(f))
  }

  /** Unpacking the joined tokens of a set of flags gives the flags back. */
  lemma ResetFlagsRoundTrip(f: ResetFlags)
    ensures DecodeResetFlags(EncodeResetFlags(f)) == f
  {
    ResetTokensLength(f);
    ResetTokenSelected(f, 0);
    ResetTokenSelected(f, 1);
    ResetTokenSelected(f, 2);
    ResetTokenSelected(f, 3);
    ResetTokenSelected(f, 4);
    ResetTokenSelected(f, 5);
    ResetTokenSelected(f, 6);
    ResetFlagsOfTokens(ResetTokens(f));
  }

  /** The tokens of a set of flags are three letters long. */
  lemma ResetTokensLength(f: ResetFlags)
    ensures forall k :: 0 <= k < |ResetTokens(f)| ==> |ResetTokens(f)[k]| == 3
  {
    forall t | t in ResetTokens(f)
      ensures |t| == 3
    {
      SelectedMembership(ResetFlagTokens, FlagList(f), t);
    }
  }

  /** The token of flag k is among the tokens of a set of flags exactly when flag k is set. */
  lemma ResetTokenSelected(f: ResetFlags, k: int)
    requires 0 <= k < |ResetFlagTokens|
    ensures ResetFlagTokens[k] in ResetTokens(f) <==> FlagList(f)[k]
  {
    assert Distinct(ResetFlagTokens);
    SelectedAt(ResetFlagTokens, FlagList(f), k);
  }

  /** No string occurs twice in `ts`. */
  predicate Distinct(ts: seq<string>)
  {
    forall i, j :: 0 <= i < j < |ts| ==> ts[i] != ts[j]
  }

  /** Among distinct strings, the one at position k is selected exactly when flag k is set. */
  lemma SelectedAt(ts: seq<string>, bs: seq<bool>, k: int)
    requires |ts| == |bs| && 0 <= k < |ts| && Distinct(ts)
    ensures ts[k] in Selected(ts, bs) <==> bs[k]
  {
    SelectedMembership(ts, bs, ts[k]);
  }

  // ---------------------------------------------------------------------------
  // Positional re-encoding of decoded events
  // ---------------------------------------------------------------------------

  /** Re-encoding a record and decoding the row gives the record back. */
  lemma ObservationRoundTrip(o: ObservationRecord)
    ensures DecodeObservationRow(EncodeObservation(o)) == Success(o)
  {
  }

  /** The rows of a list of observations. */
  function EncodeRows(os: seq<ObservationRecord>): (rows: seq<seq<Option<Number>>>)
  {
    seq(|os|, i requires 0 <= i < |os| => EncodeObservation(os[i]))
  }

  /** The wire event of a decoded event: every named field back in its array slot or its field. */
  function EncodeEvent(d: DecodedEvent): Event
  {
    match d
    case RainStartDecoded(x) =>
      RainStart(RainStartEvent(x.serial_number, x.hub_sn, [x.timestamp]))
    case LightningStrikeDecoded(x) =>
      LightningStrike(LightningStrikeEvent(x.serial_number, x.hub_sn, [x.time, x.distance, x.energy]))
    case RapidWindDecoded(x) =>
      RapidWind(RapidWindEvent(x.serial_number, x.hub_sn, [x.time, x.speed, x.direction]))
    case ObservationDecoded(x) =>
      Observation(TempestObservation(x.serial_number, x.hub_sn, EncodeRows(x.observations), x.firmwareRevision))
    case DeviceDecoded(x) =>
      Device(DeviceStatus(x.serial_number, x.hub_sn,
        x.timestamp, x.uptime, x.voltage, x.firmware_revision, x.rssi, x.hub_rssi,
        EncodeSensorStatus(x.sensor_status),
        if x.debug_enabled then 1.0 else 0.0))
    case HubDecoded(x) =>
      var rs := x.radio_stats;
      Hub(HubStatus(x.serial_number,
        x.firmware_revision, x.uptime, x.rssi, x.timestamp,
        EncodeResetFlags(x.reset_flags),
        x.seq_number, x.fs,
        [rs.version, rs.rebootCount, rs.i2cBusErrorCount, RadioCode(rs.status) as real, rs.networkId],
        x.mqtt_stats))
  }

  /**
   * A decoded event the decoder can produce: an `obs_st` event holds exactly
   * one observation, and a sensor status is consistent.
   */
  predicate Decodable(d: DecodedEvent)
  {
    match d
    case ObservationDecoded(x) => |x.observations| == 1
    case DeviceDecoded(x) => ConsistentSensorStatus(x.sensor_status)
    case _ => true
  }

  /** Everything the decoder returns is decodable. */
  lemma DecodeYieldsDecodable(e: Event)
    requires Decode(e).Success?
    ensures Decodable(Decode(e).value)
  {
    if e.Device? {
      DecodedSensorStatusIsConsistent(e.device.sensor_status);
    }
  }

  /** Re-encoding a decodable event positionally and decoding it gives the event back. */
  lemma EventRoundTrip(d: DecodedEvent)
    requires Decodable(d)
    ensures Decode(EncodeEvent(d)) == Success(d)
  {
    match d
    case ObservationDecoded(x) =>
      var o := x.observations[0];
      ObservationRoundTrip(o);
      assert x.observations == [o];
      assert EncodeRows(x.observations) == [EncodeObservation(o)];
    case DeviceDecoded(x) =>
      SensorStatusRoundTrip(x.sensor_status);
    case HubDecoded(x) =>
      ResetFlagsRoundTrip(x.reset_flags);
    case _ =>
  }

  /** Decoding, re-encoding and decoding again gives the first decoding. */
  lemma DecodeEncodeDecode(e: Event)
    requires Decode(e).Success?
    ensures Decode(EncodeEvent(Decode(e).value)) == Decode(e)
  {
    DecodeYieldsDecodable(e);
    EventRoundTrip(Decode(e).value);
  }

  /**
   * The other direction, for the positional shapes: an array of exactly the
   * documented arity, or a single observation row of 18 fields with a
   * non-null precipitation code in the table, decodes, and is rebuilt exactly
   * from its decoding.
   */
  lemma PositionalRoundTrip(e: Event)
    requires e.RainStart? ==> |e.rainStart.evt| == 1
    requires e.LightningStrike? ==> |e.strike.evt| == 3
    requires e.RapidWind? ==> |e.wind.ob| == 3
    requires e.Observation? ==>
      && |e.observation.obs| == 1 && |e.observation.obs[0]| == ObservationArity
      && e.observation.obs[0][13].Some? && PrecipitationTypeOf(e.observation.obs[0][13]).Some?
    ensures e.RainStart? || e.LightningStrike? || e.RapidWind? || e.Observation? ==>
      Decode(e).Success? && EncodeEvent(Decode(e).value) == e
  {
    if e.Observation? {
      var x := e.observation;
      assert WellFormed(e);
      var o := Decode(e).value.observation.observations[0];
      assert EncodeObservation(o) == x.obs[0][..ObservationArity] == x.obs[0];
      assert EncodeRows([o]) == [EncodeObservation(o)];
    } else if e.RainStart? {
      assert WellFormed(e);
      assert [e.rainStart.evt[0]] == e.rainStart.evt;
    } else if e.LightningStrike? {
      assert WellFormed(e);
      assert e.strike.evt[..3] == e.strike.evt;
    } else if e.RapidWind? {
      assert WellFormed(e);
      assert e.wind.ob[..3] == e.wind.ob;
    }
  }

  /** Every `type` the decoder has no branch for is rejected as unsupported. */
  lemma UnknownTypeRejected(t: string)
    requires t !in KnownTypes
    ensures Decode(Other(t)) == Failure(UnsupportedEventType(t))
  {
  }
}
