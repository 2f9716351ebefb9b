/**
 * The decoder of the UDP payloads a WeatherFlow Tempest hub broadcasts
 * (src/weatherflow.ts). A wire event is the object JSON.parse yields for one
 * datagram; the decoder turns its positional arrays into named fields, maps
 * integer codes to enumerations and unpacks the two flag fields.
 */
module WeatherFlow {
  import opened Wrappers

  /**
   * A JavaScript number. The decoder copies most numbers unchanged; the only
   * ones it interprets are the two table lookups, the sensor bit field and the
   * debug flag. NaN and the infinities are not modelled.
   */
  type Number = real

  // ---------------------------------------------------------------------------
  // Wire events, one datatype per payload shape the hub sends
  // ---------------------------------------------------------------------------

  /** `evt_precip`: rain started; `evt` is `[time epoch in seconds]`. */
  datatype RainStartEvent = RainStartEvent(serial_number: string, hub_sn: string, evt: seq<Number>)

  /** `evt_strike`: one lightning strike; `evt` is `[time, distance in km, energy]`. */
  datatype LightningStrikeEvent = LightningStrikeEvent(serial_number: string, hub_sn: string, evt: seq<Number>)

  /** `rapid_wind`: a wind sample; `ob` is `[time, speed in m/s, direction in degrees]`. */
  datatype RapidWindEvent = RapidWindEvent(serial_number: string, hub_sn: string, ob: seq<Number>)

  /**
   * `obs_st`: a station observation; `obs` is a list of 18-field rows
   * (time, wind lull, average, gust, direction, sample interval, pressure,
   * temperature, humidity, illuminance, UV, solar radiation, rain amount,
   * precipitation type code, strike count, strike distance, battery, report
   * interval), each field possibly null.
   */
  datatype TempestObservation = TempestObservation(
    serial_number: string, hub_sn: string,
    obs: seq<seq<Option<Number>>>,
    firmware_revision: Number)

  /** `device_status`: health of one sensor device; `sensor_status` is a bit field. */
  datatype DeviceStatus = DeviceStatus(
    serial_number: string, hub_sn: string,
    timestamp: Number, uptime: Number, voltage: Number, firmware_revision: Number,
    rssi: Number, hub_rssi: Number,
    sensor_status: Number,
    debug: Number)

  /**
   * `hub_status`: health of the hub itself (no `hub_sn`). `reset_flags` is a
   * comma-joined list of reset causes; `radio_stats` is `[version, reboot
   * count, I2C bus error count, radio status code, network id]`; `fs` and
   * `mqtt_stats` are undocumented and copied as they are.
   */
  datatype HubStatus = HubStatus(
    serial_number: string,
    firmware_revision: string, uptime: Number, rssi: Number, timestamp: Number,
    reset_flags: string,
    seq_number: Number,
    fs: seq<Number>,
    radio_stats: seq<Number>,
    mqtt_stats: seq<Number>)

  /**
   * One parsed datagram. The six known shapes carry their `type` implicitly;
   * `Other` is an object whose `type` names no known shape, or names one whose
   * fields it does not have.
   */
  datatype Event =
    | RainStart(rainStart: RainStartEvent)
    | LightningStrike(strike: LightningStrikeEvent)
    | RapidWind(wind: RapidWindEvent)
    | Observation(observation: TempestObservation)
    | Device(device: DeviceStatus)
    | Hub(hub: HubStatus)
    | Other(type_name: string)
  {
    /** The `type` discriminant of the object. */
    function TypeName(): string
    {
      match this
      case RainStart(_) => "evt_precip"
      case LightningStrike(_) => "evt_strike"
      case RapidWind(_) => "rapid_wind"
      case Observation(_) => "obs_st"
      case Device(_) => "device_status"
      case Hub(_) => "hub_status"
      case Other(t) => t
    }

    /** The `serial_number` of a known shape. */
    function SerialNumber(): string
      requires !Other?
    {
      match this
      case RainStart(e) => e.serial_number
      case LightningStrike(e) => e.serial_number
      case RapidWind(e) => e.serial_number
      case Observation(e) => e.serial_number
      case Device(e) => e.serial_number
      case Hub(e) => e.serial_number
    }

    /** The `hub_sn` of a known shape; `hub_status` has none. */
    function HubSn(): Option<string>
      requires !Other?
    {
      match this
      case RainStart(e) => Some(e.hub_sn)
      case LightningStrike(e) => Some(e.hub_sn)
      case RapidWind(e) => Some(e.hub_sn)
      case Observation(e) => Some(e.hub_sn)
      case Device(e) => Some(e.hub_sn)
      case Hub(_) => None
    }
  }

  /** The `type` values the decoder has a branch for. */
  const KnownTypes: set<string> :=
    {"evt_precip", "evt_strike", "rapid_wind", "obs_st", "device_status", "hub_status"}

  // ---------------------------------------------------------------------------
  // Decoded events
  // ---------------------------------------------------------------------------

  datatype RainStartEventDecoded = RainStartEventDecoded(serial_number: string, hub_sn: string, timestamp: Number)

  datatype LightningStrikeEventDecoded = LightningStrikeEventDecoded(
    serial_number: string, hub_sn: string, time: Number, distance: Number, energy: Number)

  datatype RapidWindEventDecoded = RapidWindEventDecoded(
    serial_number: string, hub_sn: string, time: Number, speed: Number, direction: Number)

  datatype PrecipitationType = NoPrecipitation | Rain | Hail | Error

  /** One `obs_st` row with its fields named. */
  datatype ObservationRecord = ObservationRecord(
    time: Option<Number>,
    windLull: Option<Number>, windAvg: Option<Number>, windGust: Option<Number>,
    windDirection: Option<Number>, windSampleInterval: Option<Number>,
    stationPressure: Option<Number>, temperature: Option<Number>, humidity: Option<Number>,
    illuminance: Option<Number>, uvIndex: Option<Number>, solarRadiation: Option<Number>,
    rainAmount: Option<Number>, precipitationType: PrecipitationType,
    lightningCount: Option<Number>, lightningAvgDistance: Option<Number>,
    battery: Option<Number>, reportInterval: Option<Number>)

  datatype TempestObservationDecoded = TempestObservationDecoded(
    serial_number: string, hub_sn: string, firmwareRevision: Number,
    observations: seq<ObservationRecord>)

  /** The `device_status` bit field, one boolean per documented bit. */
  datatype SensorStatus = SensorStatus(
    sensors_ok: bool,
    lightning_sensor_failed: bool,
    lightning_sensor_noise: bool,
    lightning_sensor_disturbance: bool,
    pressure_sensor_failed: bool,
    temperature_sensor_failed: bool,
    humidity_sensor_failed: bool,
    wind_sensor_failed: bool,
    precipitation_sensor_failed: bool,
    light_uv_sensor_failed: bool)
  {
    /** The nine failure and noise flags, in the order of their bits (bit 0 first). */
    function Failures(): seq<bool>
    {
      [lightning_sensor_failed, lightning_sensor_noise, lightning_sensor_disturbance,
       pressure_sensor_failed, temperature_sensor_failed, humidity_sensor_failed,
       wind_sensor_failed, precipitation_sensor_failed, light_uv_sensor_failed]
    }
  }

  datatype DeviceStatusDecoded = DeviceStatusDecoded(
    serial_number: string, hub_sn: string,
    timestamp: Number, uptime: Number, voltage: Number, firmware_revision: Number,
    rssi: Number, hub_rssi: Number,
    sensor_status: SensorStatus,
    debug_enabled: bool)

  /** The reset causes the hub documents: brownout, pin, power, software, watchdog, window watchdog, low power. */
  datatype ResetFlags = ResetFlags(BOR: bool, PIN: bool, POR: bool, SFT: bool, WDG: bool, WWD: bool, LPW: bool)

  datatype RadioStatus = Off | On | Active

  /** `radio_stats` with its fields named; a `status` of None is the source's `null`. */
  datatype RadioStats = RadioStats(
    version: Number, rebootCount: Number, i2cBusErrorCount: Number,
    status: Option<RadioStatus>, networkId: Number)

  datatype HubStatusDecoded = HubStatusDecoded(
    serial_number: string,
    firmware_revision: string, uptime: Number, rssi: Number, timestamp: Number,
    reset_flags: ResetFlags,
    seq_number: Number,
    fs: seq<Number>,
    radio_stats: RadioStats,
    mqtt_stats: seq<Number>)

  datatype DecodedEvent =
    | RainStartDecoded(rainStart: RainStartEventDecoded)
    | LightningStrikeDecoded(strike: LightningStrikeEventDecoded)
    | RapidWindDecoded(wind: RapidWindEventDecoded)
    | ObservationDecoded(observation: TempestObservationDecoded)
    | DeviceDecoded(device: DeviceStatusDecoded)
    | HubDecoded(hub: HubStatusDecoded)
  {
    function TypeName(): string
    {
      match this
      case RainStartDecoded(_) => "evt_precip"
      case LightningStrikeDecoded(_) => "evt_strike"
      case RapidWindDecoded(_) => "rapid_wind"
      case ObservationDecoded(_) => "obs_st"
      case DeviceDecoded(_) => "device_status"
      case HubDecoded(_) => "hub_status"
    }

    function SerialNumber(): string
    {
      match this
      case RainStartDecoded(d) => d.serial_number
      case LightningStrikeDecoded(d) => d.serial_number
      case RapidWindDecoded(d) => d.serial_number
      case ObservationDecoded(d) => d.serial_number
      case DeviceDecoded(d) => d.serial_number
      case HubDecoded(d) => d.serial_number
    }

    function HubSn(): Option<string>
    {
      match this
      case RainStartDecoded(d) => Some(d.hub_sn)
      case LightningStrikeDecoded(d) => Some(d.hub_sn)
      case RapidWindDecoded(d) => Some(d.hub_sn)
      case ObservationDecoded(d) => Some(d.hub_sn)
      case DeviceDecoded(d) => Some(d.hub_sn)
      case HubDecoded(_) => None
    }
  }

  /** Why a datagram could not be decoded. */
  datatype DecodeError =
      /** The `type` names no known shape. */
    | UnsupportedEventType(type_name: string)
      /** The `type` is known but the payload does not have its shape. */
    | MalformedPayload(type_name: string)
      /** A code falls outside its lookup table. */
    | CodeOutOfRange(field: string, code: Option<Number>)

  // ---------------------------------------------------------------------------
  // Table lookups
  // ---------------------------------------------------------------------------

  /**
   * The slot a JavaScript lookup `table[x]` reads in a table of length `n`:
   * Some(k) when `x` is the whole number k below `n`; None when the lookup
   * yields `undefined`.
   */
  function ArrayIndex(x: Number, n: nat): (r: Option<nat>)
    ensures r.Some? ==> r.value < n && r.value as real == x
    ensures r.None? ==> x != x.Floor as real || x < 0.0 || n as real <= x
  {
    if x == x.Floor as real && 0 <= x.Floor < n then Some(x.Floor as nat) else None
  }

  /** The wire code of each precipitation type. */
  function PrecipitationCode(t: PrecipitationType): nat
  {
    match t
    case NoPrecipitation => 0
    case Rain => 1
    case Hail => 2
    case Error => 3
  }

  const PrecipitationTable: seq<PrecipitationType> := [NoPrecipitation, Rain, Hail, Error]

  /**
   * The precipitation type of a code; a null code reads as 3. None is the
   * `undefined` an out-of-range code yields.
   */
  function PrecipitationTypeOf(code: Option<Number>): (r: Option<PrecipitationType>)
    ensures forall t :: r == Some(t) <==>
      code == Some(PrecipitationCode(t) as real) || (code.None? && t == Error)
  {
    match ArrayIndex(code.GetOr(3.0), |PrecipitationTable|)
    case Some(i) => Some(PrecipitationTable[i])
    case None => None
  }

  /** The wire code of each radio status; null stands for code 2. */
  function RadioCode(s: Option<RadioStatus>): nat
  {
    match s
    case Some(Off) => 0
    case Some(On) => 1
    case None => 2
    case Some(Active) => 3
  }

  const RadioStatusTable: seq<Option<RadioStatus>> := [Some(Off), Some(On), None, Some(Active)]

  /** The radio status of a code. The outer None is the `undefined` an out-of-range code yields. */
  function RadioStatusOf(code: Number): (r: Option<Option<RadioStatus>>)
    ensures forall s :: r == Some(s) <==> code == RadioCode(s) as real
  {
    match ArrayIndex(code, |RadioStatusTable|)
    case Some(i) => Some(RadioStatusTable[i])
    case None => None
  }

  // ---------------------------------------------------------------------------
  // The sensor status bit field
  // ---------------------------------------------------------------------------

  /** Truncation toward zero: the whole number next to `x` on the side of zero. */
  function Trunc(x: real): (n: int)
    ensures 0.0 <= x ==> 0 <= n && n as real <= x < n as real + 1.0
    ensures x < 0.0 ==> n <= 0 && n as real - 1.0 < x <= n as real
  {
    if x >= 0.0 then x.Floor else -((-x).Floor)
  }

  /**
   * The 32-bit pattern a JavaScript bitwise operator works on: ToInt32 of
   * section 7.1.6 of ECMA-262, which truncates and reduces modulo 2^32.
   */
  function Int32Bits(x: Number): bv32
  {
    (Trunc(x) % 0x1_0000_0000) as bv32
  }

  /** The nine documented bits of the sensor status field. */
  const SensorMask: bv32 := 0x1FF

  /**
   * Unpacks the 32-bit pattern of `sensor_status`. The hub reports the bits
   * inverted, so the pattern is XORed with the nine-bit mask first: a failure
   * flag is set exactly when its bit is clear, and the sensors are OK exactly
   * when all nine bits are set, that is, when no failure flag is.
   */
  function SensorStatusOfBits(bits: bv32): (s: SensorStatus)
    ensures s.lightning_sensor_failed <==> bits & 0x001 == 0
    ensures s.lightning_sensor_noise <==> bits & 0x002 == 0
    ensures s.lightning_sensor_disturbance <==> bits & 0x004 == 0
    ensures s.pressure_sensor_failed <==> bits & 0x008 == 0
    ensures s.temperature_sensor_failed <==> bits & 0x010 == 0
    ensures s.humidity_sensor_failed <==> bits & 0x020 == 0
    ensures s.wind_sensor_failed <==> bits & 0x040 == 0
    ensures s.precipitation_sensor_failed <==> bits & 0x080 == 0
    ensures s.light_uv_sensor_failed <==> bits & 0x100 == 0
    ensures s.sensors_ok <==> bits & SensorMask == SensorMask
    ensures s.sensors_ok <==> true !in s.Failures()
  {
    var css := bits ^ SensorMask;
    SensorStatus(
      sensors_ok := css & 0x1FF == 0,
      lightning_sensor_failed := css & 0x001 != 0,
      lightning_sensor_noise := css & 0x002 != 0,
      lightning_sensor_disturbance := css & 0x004 != 0,
      pressure_sensor_failed := css & 0x008 != 0,
      temperature_sensor_failed := css & 0x010 != 0,
      humidity_sensor_failed := css & 0x020 != 0,
      wind_sensor_failed := css & 0x040 != 0,
      precipitation_sensor_failed := css & 0x080 != 0,
      light_uv_sensor_failed := css & 0x100 != 0)
  }

  /**
   * Unpacks `sensor_status`, a number that the XOR first converts to 32 bits:
   * each failure flag is set exactly when its bit of the 32-bit pattern is clear.
   */
  function DecodeSensorStatus(raw: Number): (s: SensorStatus)
    ensures s.lightning_sensor_failed <==> Int32Bits(raw) & 0x001 == 0
    ensures s.lightning_sensor_noise <==> Int32Bits(raw) & 0x002 == 0
    ensures s.lightning_sensor_disturbance <==> Int32Bits(raw) & 0x004 == 0
    ensures s.pressure_sensor_failed <==> Int32Bits(raw) & 0x008 == 0
    ensures s.temperature_sensor_failed <==> Int32Bits(raw) & 0x010 == 0
    ensures s.humidity_sensor_failed <==> Int32Bits(raw) & 0x020 == 0
    ensures s.wind_sensor_failed <==> Int32Bits(raw) & 0x040 == 0
    ensures s.precipitation_sensor_failed <==> Int32Bits(raw) & 0x080 == 0
    ensures s.light_uv_sensor_failed <==> Int32Bits(raw) & 0x100 == 0
    ensures s.sensors_ok <==> Int32Bits(raw) & SensorMask == SensorMask
    ensures s.sensors_ok <==> true !in s.Failures()
  {
    SensorStatusOfBits(Int32Bits(raw))
  }

  // ---------------------------------------------------------------------------
  // The reset flags string
  // ---------------------------------------------------------------------------

  /** `t` occurs in `s` at position `i`. */
  ghost predicate OccursAt(t: string, s: string, i: int)
  {
    0 <= i <= |s| - |t| && s[i..i + |t|] == t
  }

  /** `t` is a substring of `s`. */
  ghost predicate OccursIn(t: string, s: string)
  {
    exists i :: OccursAt(t, s, i)
  }

  /** `s.includes(t)`: a left-to-right search for `t` in `s`. */
  function Includes(s: string, t: string): (b: bool)
    ensures b <==> OccursIn(t, s)
    decreases |s|
  {
    if |s| < |t| then false
    else if s[..|t|] == t then assert OccursAt(t, s, 0); true
    else
      var b := Includes(s[1..], t);
      assert b ==> OccursIn(t, s) by {
        if b {
          var i :| OccursAt(t, s[1..], i);
          assert s[1..][i..i + |t|] == s[i + 1..i + 1 + |t|];
          assert OccursAt(t, s, i + 1);
        }
      }
      assert OccursIn(t, s) ==> b by {
        if OccursIn(t, s) {
          var i :| OccursAt(t, s, i);
          assert i != 0;
          assert s[1..][i - 1..i - 1 + |t|] == s[i..i + |t|];
          assert OccursAt(t, s[1..], i - 1);
        }
      }
      b
  }

  /** Unpacks `reset_flags`: each flag is set exactly when its token occurs in the string. */
  function DecodeResetFlags(flags: string): (f: ResetFlags)
    ensures f.BOR <==> OccursIn("BOR", flags)
    ensures f.PIN <==> OccursIn("PIN", flags)
    ensures f.POR <==> OccursIn("POR", flags)
    ensures f.SFT <==> OccursIn("SFT", flags)
    ensures f.WDG <==> OccursIn("WDG", flags)
    ensures f.WWD <==> OccursIn("WWD", flags)
    ensures f.LPW <==> OccursIn("LPW", flags)
  {
    ResetFlags(
      BOR := Includes(flags, "BOR"),
      PIN := Includes(flags, "PIN"),
      POR := Includes(flags, "POR"),
      SFT := Includes(flags, "SFT"),
      WDG := Includes(flags, "WDG"),
      WWD := Includes(flags, "WWD"),
      LPW := Includes(flags, "LPW"))
  }

  // ---------------------------------------------------------------------------
  // Positional encoding of an observation row
  // ---------------------------------------------------------------------------

  /** The number of fields in an `obs_st` row. */
  const ObservationArity: nat := 18

  /** The row of an observation, in wire order, with its precipitation type as its code. */
  function EncodeObservation(o: ObservationRecord): (row: seq<Option<Number>>)
  {
    [o.time, o.windLull, o.windAvg, o.windGust, o.windDirection, o.windSampleInterval,
     o.stationPressure, o.temperature, o.humidity,
     o.illuminance, o.uvIndex, o.solarRadiation,
     o.rainAmount, Some(PrecipitationCode(o.precipitationType) as real),
     o.lightningCount, o.lightningAvgDistance,
     o.battery, o.reportInterval]
  }

  /**
   * Names the fields of one `obs_st` row. Fields past the eighteenth are
   * ignored, as array destructuring ignores them.
   */
  function DecodeObservationRow(row: seq<Option<Number>>): (r: Result<ObservationRecord, DecodeError>)
    ensures |row| < ObservationArity ==> r == Failure(MalformedPayload("obs_st"))
    ensures r.Failure? ==> r.error.MalformedPayload? || r.error.CodeOutOfRange?
    ensures |row| >= ObservationArity ==>
      (r.Success? <==> PrecipitationTypeOf(row[13]).Some?)
    ensures r.Success? ==> r.value.precipitationType == PrecipitationTypeOf(row[13]).value
    ensures r.Success? ==> forall i :: 0 <= i < ObservationArity && i != 13 ==> EncodeObservation(r.value)[i] == row[i]
    ensures r.Success? && row[13].Some? ==> EncodeObservation(r.value) == row[..ObservationArity]
  {
    if |row| < ObservationArity then Failure(MalformedPayload("obs_st"))
    else
      match PrecipitationTypeOf(row[13])
      case None => Failure(CodeOutOfRange("precipitationType", row[13]))
      case Some(precipitationType) =>
        Success(ObservationRecord(
          time := row[0],
          windLull := row[1], windAvg := row[2], windGust := row[3],
          windDirection := row[4], windSampleInterval := row[5],
          stationPressure := row[6], temperature := row[7], humidity := row[8],
          illuminance := row[9], uvIndex := row[10], solarRadiation := row[11],
          rainAmount := row[12], precipitationType := precipitationType,
          lightningCount := row[14], lightningAvgDistance := row[15],
          battery := row[16], reportInterval := row[17]))
  }

  // ---------------------------------------------------------------------------
  // The decoder, one function per branch
  // ---------------------------------------------------------------------------

  function DecodeRainStart(e: RainStartEvent): (r: Result<RainStartEventDecoded, DecodeError>)
    ensures r.Success? <==> |e.evt| >= 1
    ensures r.Failure? ==> r.error == MalformedPayload("evt_precip")
    ensures r.Success? ==> r.value.serial_number == e.serial_number && r.value.hub_sn == e.hub_sn
    ensures r.Success? ==> r.value.timestamp == e.evt[0]
  {
    if |e.evt| < 1 then Failure(MalformedPayload("evt_precip"))
    else Success(RainStartEventDecoded(e.serial_number, e.hub_sn, timestamp := e.evt[0]))
  }

  function DecodeLightningStrike(e: LightningStrikeEvent): (r: Result<LightningStrikeEventDecoded, DecodeError>)
    ensures r.Success? <==> |e.evt| >= 3
    ensures r.Failure? ==> r.error == MalformedPayload("evt_strike")
    ensures r.Success? ==> r.value.serial_number == e.serial_number && r.value.hub_sn == e.hub_sn
    ensures r.Success? ==> [r.value.time, r.value.distance, r.value.energy] == e.evt[..3]
  {
    if |e.evt| < 3 then Failure(MalformedPayload("evt_strike"))
    else Success(LightningStrikeEventDecoded(e.serial_number, e.hub_sn,
      time := e.evt[0], distance := e.evt[1], energy := e.evt[2]))
  }

  function DecodeRapidWind(e: RapidWindEvent): (r: Result<RapidWindEventDecoded, DecodeError>)
    ensures r.Success? <==> |e.ob| >= 3
    ensures r.Failure? ==> r.error == MalformedPayload("rapid_wind")
    ensures r.Success? ==> r.value.serial_number == e.serial_number && r.value.hub_sn == e.hub_sn
    ensures r.Success? ==> [r.value.time, r.value.speed, r.value.direction] == e.ob[..3]
  {
    if |e.ob| < 3 then Failure(MalformedPayload("rapid_wind"))
    else Success(RapidWindEventDecoded(e.serial_number, e.hub_sn,
      time := e.ob[0], speed := e.ob[1], direction := e.ob[2]))
  }

  /** Decodes the first row of `obs` only; any further rows are dropped. */
  function DecodeTempestObservation(e: TempestObservation): (r: Result<TempestObservationDecoded, DecodeError>)
    ensures |e.obs| == 0 ==> r == Failure(MalformedPayload("obs_st"))
    ensures |e.obs| > 0 ==> (r.Success? <==> DecodeObservationRow(e.obs[0]).Success?)
    ensures r.Failure? ==> r.error.MalformedPayload? || r.error.CodeOutOfRange?
    ensures r.Success? ==> r.value.serial_number == e.serial_number && r.value.hub_sn == e.hub_sn
    ensures r.Success? ==> r.value.firmwareRevision == e.firmware_revision
    ensures r.Success? ==> |r.value.observations| == 1
    ensures r.Success? ==> Success(r.value.observations[0]) == DecodeObservationRow(e.obs[0])
  {
    if |e.obs| == 0 then Failure(MalformedPayload("obs_st"))
    else
      match DecodeObservationRow(e.obs[0])
      case Failure(err) => Failure(err)
      case Success(o) =>
        Success(TempestObservationDecoded(e.serial_number, e.hub_sn,
          firmwareRevision := e.firmware_revision, observations := [o]))
  }

  /** Never fails: every field is copied, or derived from a number by arithmetic. */
  function DecodeDeviceStatus(e: DeviceStatus): (d: DeviceStatusDecoded)
    ensures d.serial_number == e.serial_number && d.hub_sn == e.hub_sn
    ensures d.timestamp == e.timestamp && d.uptime == e.uptime && d.voltage == e.voltage
    ensures d.firmware_revision == e.firmware_revision && d.rssi == e.rssi && d.hub_rssi == e.hub_rssi
    ensures d.sensor_status == DecodeSensorStatus(e.sensor_status)
    ensures d.sensor_status.sensors_ok <==> Int32Bits(e.sensor_status) & SensorMask == SensorMask
    ensures d.debug_enabled <==> e.debug == 1.0
  {
    DeviceStatusDecoded(
      e.serial_number, e.hub_sn,
      e.timestamp, e.uptime, e.voltage, e.firmware_revision,
      e.rssi, e.hub_rssi,
      sensor_status := DecodeSensorStatus(e.sensor_status),
      debug_enabled := e.debug == 1.0)
  }

  function DecodeHubStatus(e: HubStatus): (r: Result<HubStatusDecoded, DecodeError>)
    ensures r.Success? <==> |e.radio_stats| >= 5 && RadioStatusOf(e.radio_stats[3]).Some?
    ensures r.Failure? ==> r.error.MalformedPayload? || r.error.CodeOutOfRange?
    ensures r.Success? ==> r.value.serial_number == e.serial_number
    ensures r.Success? ==>
      && r.value.firmware_revision == e.firmware_revision && r.value.uptime == e.uptime
      && r.value.rssi == e.rssi && r.value.timestamp == e.timestamp
      && r.value.seq_number == e.seq_number && r.value.fs == e.fs && r.value.mqtt_stats == e.mqtt_stats
    ensures r.Success? ==> r.value.reset_flags == DecodeResetFlags(e.reset_flags)
    ensures r.Success? ==>
      var s := r.value.radio_stats;
      && [s.version, s.rebootCount, s.i2cBusErrorCount, s.networkId]
         == [e.radio_stats[0], e.radio_stats[1], e.radio_stats[2], e.radio_stats[4]]
      && e.radio_stats[3] == RadioCode(s.status) as real
  {
    if |e.radio_stats| < 5 then Failure(MalformedPayload("hub_status"))
    else
      match RadioStatusOf(e.radio_stats[3])
      case None => Failure(CodeOutOfRange("radio_stats.status", Some(e.radio_stats[3])))
      case Some(status) =>
        Success(HubStatusDecoded(
          e.serial_number,
          e.firmware_revision, e.uptime, e.rssi, e.timestamp,
          reset_flags := DecodeResetFlags(e.reset_flags),
          seq_number := e.seq_number,
          fs := e.fs,
          radio_stats := RadioStats(
            version := e.radio_stats[0],
            rebootCount := e.radio_stats[1],
            i2cBusErrorCount := e.radio_stats[2],
            status := status,
            networkId := e.radio_stats[4]),
          mqtt_stats := e.mqtt_stats))
  }

  /** A branch decoder's result, as a result of the whole decoder. */
  function Lift<T>(r: Result<T, DecodeError>, wrap: T -> DecodedEvent): Result<DecodedEvent, DecodeError>
  {
    match r
    case Success(d) => Success(wrap(d))
    case Failure(err) => Failure(err)
  }

  /**
   * A datagram the decoder accepts: a known `type` whose arrays have at least
   * their documented arity (one `obs` row of 18 fields, five `radio_stats`)
   * and whose codes are in their tables.
   */
  predicate WellFormed(e: Event)
  {
    match e
    case RainStart(x) => |x.evt| >= 1
    case LightningStrike(x) => |x.evt| >= 3
    case RapidWind(x) => |x.ob| >= 3
    case Observation(x) =>
      |x.obs| >= 1 && |x.obs[0]| >= ObservationArity && PrecipitationTypeOf(x.obs[0][13]).Some?
    case Device(_) => true
    case Hub(x) => |x.radio_stats| >= 5 && RadioStatusOf(x.radio_stats[3]).Some?
    case Other(_) => false
  }

  /**
   * Decodes one datagram by dispatching on its `type`. A decoded event keeps
   * the `type`, `serial_number` and `hub_sn` of the wire event; decoding
   * succeeds exactly on well-formed datagrams; an unknown `type` is rejected.
   */
  function Decode(e: Event): (r: Result<DecodedEvent, DecodeError>)
    ensures r.Success? <==> WellFormed(e)
    ensures r.Success? ==> !e.Other? && r.value.TypeName() == e.TypeName()
    ensures r.Success? ==> r.value.SerialNumber() == e.SerialNumber() && r.value.HubSn() == e.HubSn()
    ensures r == Failure(UnsupportedEventType(e.TypeName())) <==> e.TypeName() !in KnownTypes
    ensures e.Other? && e.TypeName() in KnownTypes ==> r == Failure(MalformedPayload(e.TypeName()))
    ensures e.RainStart? ==> r == Lift(DecodeRainStart(e.rainStart), d => RainStartDecoded(d))
    ensures e.LightningStrike? ==> r == Lift(DecodeLightningStrike(e.strike), d => LightningStrikeDecoded(d))
    ensures e.RapidWind? ==> r == Lift(DecodeRapidWind(e.wind), d => RapidWindDecoded(d))
    ensures e.Observation? ==> r == Lift(DecodeTempestObservation(e.observation), d => ObservationDecoded(d))
    ensures e.Device? ==> r == Success(DeviceDecoded(DecodeDeviceStatus(e.device)))
    ensures e.Hub? ==> r == Lift(DecodeHubStatus(e.hub), d => HubDecoded(d))
  {
    match e
    case RainStart(x) => Lift(DecodeRainStart(x), d => RainStartDecoded(d))
    case LightningStrike(x) => Lift(DecodeLightningStrike(x), d => LightningStrikeDecoded(d))
    case RapidWind(x) => Lift(DecodeRapidWind(x), d => RapidWindDecoded(d))
    case Observation(x) => Lift(DecodeTempestObservation(x), d => ObservationDecoded(d))
    case Device(x) => Success(DeviceDecoded(DecodeDeviceStatus(x)))
    case Hub(x) => Lift(DecodeHubStatus(x), d => HubDecoded(d))
    case Other(t) =>
      if t in KnownTypes then Failure(MalformedPayload(t))
      else Failure(UnsupportedEventType(t))
  }
}
