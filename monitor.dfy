/** `PlantMonitorSystem` of pms.py: the configuration it reads through
    `deep_get`, the five-field reading record `date` it overwrites on every
    sample, and the two store operations it runs against the filesystem. */
module Monitor {
  import opened Wrappers
  import opened Utility
  import opened Adc
  import opened Store

  /** The keys of the `date` record. */
  const DateKeys: set<string> := {"timestamp", "light_intensity", "soil_moisture", "air_humidity", "temperature"}

  /** The record `__init__` starts with: every field 0. */
  const InitialDate: map<string, Value> := map[
    "timestamp" := IntVal(0),
    "light_intensity" := IntVal(0),
    "soil_moisture" := IntVal(0),
    "air_humidity" := IntVal(0),
    "temperature" := IntVal(0)]

  /** The result of one `Adafruit_DHT.read_retry(DHT11, 4)`: humidity and
      temperature, both None once the driver has given up. */
  datatype ProbeRead = ProbeRead(humidity: Value, temperature: Value)

  /** `deep_get(CFG, 'database_name', default = "pms.db")`, when it is a string. */
  function ConfiguredDbName(cfg: Json): (name: Option<string>)
    ensures PathValue(cfg, ["database_name"]).None? ==> name == Some(HardCodedPath)
    ensures PathValue(cfg, ["database_name"]).Some? ==>
      (name.Some? <==> PathValue(cfg, ["database_name"]).value.Str?) &&
      (name.Some? ==> name.value == PathValue(cfg, ["database_name"]).value.s)
  {
    DeepGetMatchesPath(cfg, ["database_name"], Str(HardCodedPath));
    match DeepGetSpec(cfg, ["database_name"], Str(HardCodedPath))
    case Str(s) => Some(s)
    case _ => None
  }

  /** `deep_get(CFG, "adc_channel", name, default = default)` as the channel
      argument `get_adc_with_channel` sees. An integer is used as it is, and a
      boolean as 0 or 1, as Python compares and shifts it. A float outside 0..7
      fails the range check, so it stands here for an out-of-range channel
      (-1 below the range, 8 above it). A float inside 0..7 reaches the shift
      and makes the source raise, as does any other value; here those give None. */
  function ConfiguredChannel(cfg: Json, name: string, default: int): (channel: Option<int>)
    ensures PathValue(cfg, ["adc_channel", name]).None? ==> channel == Some(default)
    ensures PathValue(cfg, ["adc_channel", name]).Some? ==>
      var v := PathValue(cfg, ["adc_channel", name]).value;
      (channel.Some? <==> v.Int? || v.Bool? || (v.Float? && (v.x < 0.0 || v.x > 7.0))) &&
      (v.Int? ==> channel == Some(v.i)) &&
      (v.Bool? ==> channel == Some(if v.b then 1 else 0)) &&
      (v.Float? && channel.Some? ==> !ValidChannel(channel.value))
  {
    DeepGetMatchesPath(cfg, ["adc_channel", name], Int(default));
    match DeepGetSpec(cfg, ["adc_channel", name], Int(default))
    case Int(i) => Some(i)
    case Bool(b) => Some(if b then 1 else 0)
    case Float(x) => if x < 0.0 then Some(-1) else if x > 7.0 then Some(8) else None
    case _ => None
  }

  function LightChannel(cfg: Json): Option<int> {
    ConfiguredChannel(cfg, "light_intensity", 0)
  }

  function SoilChannel(cfg: Json): Option<int> {
    ConfiguredChannel(cfg, "soil_moisture", 1)
  }

  /** Both ADC channels are configured as numbers Python can use. */
  predicate ChannelsConfigured(cfg: Json) {
    LightChannel(cfg).Some? && SoilChannel(cfg).Some?
  }

  /** The Python value `get_adc_with_channel` returns. */
  function AdcValue(a: AdcRead): Value {
    match a.percent
    case Some(p) => IntVal(p)
    case None => NoneVal
  }

  /** The reading `get_sensor_date` collects: the timestamp, the light and soil
      channels read through the ADC, humidity from one probe read and
      temperature from a second, separate one. */
  function Sample(cfg: Json, timestamp: int, lightReply: Frame, soilReply: Frame,
                  humidityProbe: ProbeRead, temperatureProbe: ProbeRead): (r: Reading)
    requires ChannelsConfigured(cfg)
    ensures r.timestamp == IntVal(timestamp)
    ensures r.light == NoneVal <==> !ValidChannel(LightChannel(cfg).value)
    ensures r.soil == NoneVal <==> !ValidChannel(SoilChannel(cfg).value)
    ensures ValidChannel(LightChannel(cfg).value) ==> r.light == IntVal(Percent(RawSample(lightReply)))
    ensures ValidChannel(SoilChannel(cfg).value) ==> r.soil == IntVal(Percent(RawSample(soilReply)))
    ensures r.light != NoneVal ==> r.light.IntVal? && 0 <= r.light.n <= 100
    ensures r.soil != NoneVal ==> r.soil.IntVal? && 0 <= r.soil.n <= 100
    ensures r.humidity == humidityProbe.humidity && r.temperature == temperatureProbe.temperature
  {
    Reading(IntVal(timestamp),
            AdcValue(GetAdcWithChannel(LightChannel(cfg).value, lightReply)),
            AdcValue(GetAdcWithChannel(SoilChannel(cfg).value, soilReply)),
            humidityProbe.humidity,
            temperatureProbe.temperature)
  }

  /** The five fields of a record, in column order. */
  function ReadingOf(date: map<string, Value>): Reading
    requires DateKeys <= date.Keys
  {
    Reading(date["timestamp"], date["light_intensity"], date["soil_moisture"],
            date["air_humidity"], date["temperature"])
  }

  /** A record with the five keys set to the reading's fields. */
  function Overwrite(date: map<string, Value>, reading: Reading): (r: map<string, Value>)
    ensures r.Keys == date.Keys + DateKeys
    ensures forall k :: k in date && k !in DateKeys ==> r[k] == date[k]
    ensures ReadingOf(r) == reading
  {
    date["timestamp" := reading.timestamp]
        ["light_intensity" := reading.light]
        ["soil_moisture" := reading.soil]
        ["air_humidity" := reading.humidity]
        ["temperature" := reading.temperature]
  }

  /** Writing back the fields a record already holds changes nothing. */
  lemma OverwriteReadingOf(date: map<string, Value>)
    requires DateKeys <= date.Keys
    ensures Overwrite(date, ReadingOf(date)) == date
  {
    var r := Overwrite(date, ReadingOf(date));
    forall k | k in date
      ensures r[k] == date[k]
    {
      if k in DateKeys {
        assert k == "timestamp" || k == "light_intensity" || k == "soil_moisture"
            || k == "air_humidity" || k == "temperature";
      }
    }
  }

  /** Only one reading exists at a time: after a sample, the record does not
      depend on what it held before. */
  lemma OverwriteForgetsPrevious(d1: map<string, Value>, d2: map<string, Value>, reading: Reading)
    requires d1.Keys == DateKeys && d2.Keys == DateKeys
    ensures Overwrite(d1, reading) == Overwrite(d2, reading)
  {
    var r1, r2 := Overwrite(d1, reading), Overwrite(d2, reading);
    forall k | k in DateKeys
      ensures r1[k] == r2[k]
    {
      assert k == "timestamp" || k == "light_intensity" || k == "soil_moisture"
          || k == "air_humidity" || k == "temperature";
    }
  }

  /** The two replies and two probe results of one loop iteration in a
      deployment whose converter answers all zero bits: both channels read 100,
      and the probe's values, or its None markers, are taken as they come. */
  lemma SampleAllZeroReplies(timestamp: int, probe: ProbeRead)
    ensures var cfg := Dict(map["sleep" := Int(0),
                                "adc_channel" := Dict(map["soil_moisture" := Int(1), "light_intensity" := Int(0)])]);
      ChannelsConfigured(cfg) &&
      Sample(cfg, timestamp, Frame(0, 0, 0), Frame(0, 0, 0), probe, probe)
        == Reading(IntVal(timestamp), IntVal(100), IntVal(100), probe.humidity, probe.temperature)
  {
    var cfg := Dict(map["sleep" := Int(0),
                        "adc_channel" := Dict(map["soil_moisture" := Int(1), "light_intensity" := Int(0)])]);
    assert PathValue(cfg, ["adc_channel", "light_intensity"]) == Some(Int(0));
    assert PathValue(cfg, ["adc_channel", "soil_moisture"]) == Some(Int(1));
    assert LightChannel(cfg) == Some(0) && SoilChannel(cfg) == Some(1);
    assert RawSample(Frame(0, 0, 0)) == 0;
    assert Percent(0) == 100;
  }

  /** A light channel configured as the float 8.5 fails the range check: the
      light field is None, no frame is sent, and the soil channel is still read. */
  lemma SampleFloatChannelOutOfRange(timestamp: int, lightReply: Frame, soilReply: Frame, probe: ProbeRead)
    ensures var cfg := Dict(map["adc_channel" := Dict(map["light_intensity" := Float(8.5)])]);
      ChannelsConfigured(cfg) &&
      GetAdcWithChannel(LightChannel(cfg).value, lightReply).sent.None? &&
      Sample(cfg, timestamp, lightReply, soilReply, probe, probe)
        == Reading(IntVal(timestamp), NoneVal, IntVal(Percent(RawSample(soilReply))), probe.humidity, probe.temperature)
  {
    var cfg := Dict(map["adc_channel" := Dict(map["light_intensity" := Float(8.5)])]);
    assert PathValue(cfg, ["adc_channel", "light_intensity"]) == Some(Float(8.5));
    assert PathValue(cfg, ["adc_channel", "soil_moisture"]) == None;
    assert LightChannel(cfg) == Some(8) && SoilChannel(cfg) == Some(1);
  }

  class PlantMonitor {
    const cfg: Json
    const dbName: string
    var date: map<string, Value>

    /** The record always holds exactly the five fields. */
    predicate Valid()
      reads this
    {
      date.Keys == DateKeys
    }

    /** `__init__`: the configured database name, the schema check, the zeroed record. */
    constructor (cfg: Json, disk: Disk, fault: Fault)
      requires ConfiguredDbName(cfg).Some?
      modifies disk
      ensures this.cfg == cfg && dbName == ConfiguredDbName(cfg).value
      ensures Valid() && date == InitialDate
      ensures disk.files == InitEffect(old(disk.files), dbName, fault)
      ensures disk.openConnections == old(disk.openConnections)
    {
      this.cfg := cfg;
      dbName := ConfiguredDbName(cfg).value;
      date := InitialDate;
      new;
      DatabaseInit(disk, fault);
    }

    /** `database_init`: create the configured file with an empty table `pms`
        unless it already exists; roll back on an exception; always close. */
    method DatabaseInit(disk: Disk, fault: Fault)
      modifies disk
      ensures disk.files == InitEffect(old(disk.files), dbName, fault)
      ensures disk.openConnections == old(disk.openConnections)
    {
      var connected := false;
      if dbName in disk.files {
        // the database exists; nothing is checked about its schema
      } else {
        if fault != ConnectFails {
          var onDisk := !NamesNoFile(dbName);
          if onDisk {
            disk.files := disk.files[dbName := EmptyDatabase];
          }
          disk.openConnections := disk.openConnections + 1;
          connected := true;
          if fault == NoFault && onDisk {
            disk.files := disk.files[dbName := FreshDatabase];  // CREATE TABLE pms, commit
          }
          // otherwise rollback: a new file stays empty; a temporary or
          // in-memory database is discarded at close
        }
        if connected {
          disk.openConnections := disk.openConnections - 1;  // close
        }
      }
    }

    /** `insert_to_db`: append the record as one row to table `pms` of
        "pms.db", if that file exists; roll back on an exception; always close. */
    method InsertToDb(disk: Disk, fault: Fault)
      requires Valid()
      modifies disk
      ensures disk.files == InsertEffect(old(disk.files), ReadingOf(date), fault)
      ensures disk.openConnections == old(disk.openConnections)
    {
      InsertInto(disk, HardCodedPath, fault);
    }

    /** `insert_to_db` with the configured name in place of "pms.db". */
    method InsertToConfiguredDb(disk: Disk, fault: Fault)
      requires Valid()
      modifies disk
      ensures disk.files == InsertAt(old(disk.files), dbName, ReadingOf(date), fault)
      ensures disk.openConnections == old(disk.openConnections)
    {
      InsertInto(disk, dbName, fault);
    }

    method InsertInto(disk: Disk, path: string, fault: Fault)
      requires Valid()
      modifies disk
      ensures disk.files == InsertAt(old(disk.files), path, ReadingOf(date), fault)
      ensures disk.openConnections == old(disk.openConnections)
    {
      var connected := false;
      if path !in disk.files {
        // the database does not exist: the reading is dropped
      } else {
        if fault != ConnectFails {
          disk.openConnections := disk.openConnections + 1;
          connected := true;
          // a name of no file opens a database of its own, without table pms
          var db := if NamesNoFile(path) then EmptyDatabase else disk.files[path];
          if fault == NoFault && TableName in db.tables {
            var rows := db.tables[TableName];
            db := Database(db.tables[TableName := rows + [Row(NextId(rows), ReadingOf(date))]]);
            disk.files := disk.files[path := db];  // commit
          }
          // otherwise rollback: the transaction's row is discarded
        }
        if connected {
          disk.openConnections := disk.openConnections - 1;  // close
        }
      }
    }

    /** `get_sensor_date`: overwrite the five fields, one by one, with the
        timestamp and the four accessor results. */
    method GetSensorDate(timestamp: int, lightReply: Frame, soilReply: Frame,
                         humidityProbe: ProbeRead, temperatureProbe: ProbeRead)
      requires Valid() && ChannelsConfigured(cfg)
      modifies this
      ensures Valid()
      ensures date == Overwrite(old(date), Sample(cfg, timestamp, lightReply, soilReply, humidityProbe, temperatureProbe))
    {
      date := date["timestamp" := IntVal(timestamp)];
      date := date["light_intensity" := AdcValue(GetAdcWithChannel(LightChannel(cfg).value, lightReply))];
      date := date["soil_moisture" := AdcValue(GetAdcWithChannel(SoilChannel(cfg).value, soilReply))];
      date := date["air_humidity" := humidityProbe.humidity];
      date := date["temperature" := temperatureProbe.temperature];
    }
  }
}
