# Plant Monitor System — a Dafny model of its sensor and store core

The plant monitor samples a light sensor and a soil-moisture sensor through an
MCP3008 analog-to-digital converter on SPI, and reads air humidity and
temperature from a DHT11 probe. It keeps the latest reading in a five-field
record and appends each reading as one row to table `pms` of a SQLite file.
Its settings come from a JSON document, read through the nested lookup
`deep_get`.

This project models that core:

- `utility.dfy` (module `Utility`): the JSON value type and `deep_get`. The
  method `DeepGet` keeps the source's loop and its early return. It is proved
  against the recursive `DeepGetSpec`. `DeepGetSpec` is then related to
  `PathValue`, which is the plain nested lookup with no default.
- `adc.dfy` (module `Adc`): `get_adc_with_channel`. It covers the channel
  check, the request frame, the 10-bit sample taken from the reply, and the
  inverted percentage. The SPI reply is a parameter. The result records which
  frame was sent, if any, and what was returned. `raw / 10.24` is computed as
  the exact rational `raw * 25 / 256`. It is rounded half-to-even, as Python
  3's `round` does.
- `store.dfy` (module `Store`): the filesystem, a map from path to database
  file. A database file maps table names to rows. `InitEffect` and `InsertAt`
  give what `database_init` and `insert_to_db` do to it. The class `Disk`
  holds that map and a count of open connections.
- `monitor.dfy` (module `Monitor`): the class `PlantMonitor`. It holds the
  configuration, the database name and the `date` record, and its methods
  change the record and the `Disk` step by step, as the source does. Where an
  exception can interrupt `sqlite3.connect` or a statement, this is a
  parameter of type `Fault`.
- `wrappers.dfy` (module `Wrappers`): `Option`, standing for Python's `None`.

Two details of the store code that the model keeps:

- `database_init`: `sqlite3.connect` creates the file before `CREATE TABLE`
  runs. So if the statement fails, the rollback leaves an empty database file
  with no table. SQLite's names `""` and `":memory:"` open a database that is
  no file, so with either name nothing appears on disk. `InitEffect` states
  both.
- `insert_to_db`: the code tests and opens the literal `"pms.db"`, not the
  configured name (see Findings).

## Model

| member | source | states |
|---|---|---|
| `Utility.DeepGet` | utility.py:16-22 | The loop returns what the key-by-key walk gives. With no keys it returns its input unchanged. When every key is present along a chain of dicts, it returns the value at the end of the path. With a non-dict default, it returns that value or else `default`. It has no `modifies` clause, so the document is only read. |
| `Utility.DeepGetFollowsPath` | utility.py:17-19 | If every key is present along a chain of dicts, the result is the value at the end of the path, whatever the default. |
| `Utility.DeepGetMatchesPath` | utility.py:16-22 | With a default that is not a dict, `deep_get` is exactly "the value at the path, or `default`". |
| `Utility.DeepGetAfterPrefix` | utility.py:17-19 | After a present prefix of the keys, the walk carries on from the value reached, with the remaining keys. |
| `Utility.DeepGetNonDict` | utility.py:18-21 | If a non-dict value is reached while keys remain, the result is `default`. |
| `Utility.DeepGetMissingKey` | utility.py:19-21 | A missing key makes `default` the cursor, and the walk continues from it with the following keys. When `default` is not a dict, the result is `default`. |
| `Utility.DeepGetPresentNull` | utility.py:19 | A key that is present but holds None gives None, not `default`. |
| `Adc.RequestFrame` | pms.py:103 | For a valid channel the frame is `[1, (8+channel)*16, 0]`. Its second byte is a multiple of 16 in 128..240. The channel can be read back from it. |
| `Adc.RawSample` | pms.py:104 | The sample lies in 0..1023. Its high two bits are the low two bits of byte 1, and its low eight bits are byte 2. |
| `Adc.RawSampleDependsOnLowBits` | pms.py:104 | Two replies give the same sample if and only if they agree on the low two bits of byte 1 and on byte 2. |
| `Adc.RawSampleRoundTrip` | pms.py:104 | Every sample 0..1023 is carried by a reply. Rebuilding a reply from a sample recovers the reply except for the bits the sample ignores. |
| `Adc.RoundHalfEven` | pms.py:105 | The result is an integer nearest to n/d. On a tie it is the even one. |
| `Adc.RoundHalfEvenUnique` | pms.py:105 | Those two properties determine the rounded value uniquely. |
| `Adc.NearestOrder` | pms.py:105 | Two nearest integers for n1 <= n2 can only be out of order on a single tie, where they differ by exactly one. |
| `Adc.RoundHalfEvenMonotone` | pms.py:105 | Rounding a larger quotient never gives a smaller integer. |
| `Adc.Percent` | pms.py:105-106 | For samples 0..1023 the percentage lies in 0..100. 100 minus the percentage is the nearest integer to raw/10.24. |
| `Adc.PercentAntitone` | pms.py:105-106 | A larger raw sample never yields a larger percentage. |
| `Adc.PercentValues` | pms.py:105-106 | Raw 0 gives 100 and raw 1023 gives 0. The four tie samples 128, 384, 640 and 896 give 88, 62, 38 and 12. |
| `Adc.PercentTies` | pms.py:105 | raw/10.24 lies exactly half-way between two integers if and only if raw mod 256 is 128. |
| `Adc.TieResidue` | pms.py:105 | 25*m mod 256 is 128 only for m = 128, among the values 0..255 of a byte. |
| `Adc.GetAdcWithChannel` | pms.py:99-106 | A channel outside 0..7 returns None and no frame is sent. A valid channel sends exactly `RequestFrame(channel)` and returns a percentage in 0..100. 100 minus that percentage is nearest to raw/10.24. |
| `Adc.GetAdcWithChannelRounds` | pms.py:103-106 | For a valid channel the result is `100 - round(raw/10.24)`, rounded half-to-even. A reply with a larger sample never reads as a larger percentage. |
| `Store.NextId` | pms.py:39 | When rows are numbered 1..n, AUTOINCREMENT's next id is n+1. |
| `Store.InitEffect` | pms.py:28-55 | An existing file is left untouched, and so is the filesystem when the name is `""` or `":memory:"`. Otherwise a failed connect changes nothing. A successful run creates the path with an empty `pms` table. A failed CREATE TABLE leaves the new file empty, with no table. No other path changes. |
| `Store.InitNoFileName` | pms.py:30-46 | With the name `""`, or `":memory:"` when no file of that name exists, `database_init` leaves the filesystem as it was. |
| `Store.InitIdempotent` | pms.py:30-46 | Running `database_init` twice gives the same filesystem as running it once. The exception is a first run that failed to connect. |
| `Store.InsertAt` | pms.py:60-84 | No file is created. No other path changes. If the file is absent, the name is `""` or `":memory:"`, or an exception occurs, nothing changes. A change is exactly one row, holding the whole reading, appended to `pms`. |
| `Store.InsertEffect` | pms.py:60-64 | The insert looks only at `"pms.db"`. It changes nothing when that file is absent and leaves every other path, including the configured one, as it was. |
| `Store.InsertAtomic` | pms.py:63-84 | On an existing table, an insert adds either no row or exactly one complete row with the next id. It adds the row if and only if no exception occurs and the name denotes a file. The numbering stays 1..n. |
| `Store.InsertReadBack` | pms.py:67-75 | After a successful insert, the table's last row holds the inserted reading verbatim. |
| `Store.InsertIgnoresConfiguredName` | pms.py:57-64 | When the configured name denotes a file other than `"pms.db"` and no `"pms.db"` exists, an insert after `database_init` leaves the filesystem unchanged. |
| `Store.InsertConfiguredStores` | pms.py:28-84 | With the configured path used throughout, a new file holds the reading as row 1 after init and one insert. With `""` or `":memory:"` nothing is kept on disk. |
| `Monitor.ConfiguredDbName` | pms.py:17 | The database name is `"pms.db"` when the key is absent. It is the configured string when that is a string, and None for any other value. |
| `Monitor.ConfiguredChannel` | pms.py:114-118 | A missing `adc_channel.<name>` gives the default channel. An integer is used as given and a boolean as 0 or 1. A float outside 0..7 gives an out-of-range channel, which the range check at pms.py:100-102 rejects. A float inside 0..7, or any other value, gives None. |
| `Monitor.Sample` | pms.py:86-91 | The reading holds the timestamp. Light and soil are None exactly when their channel is out of range. Otherwise each is `Percent` of the sample in its own reply, in 0..100. Humidity comes from one probe read and temperature from a second, separate read. |
| `Monitor.SampleFloatChannelOutOfRange` | pms.py:100-102 | A light channel configured as the float 8.5 sends no frame and stores None for light; the soil channel is still read from its own reply. |
| `Monitor.Overwrite` | pms.py:86-91 | The record gets exactly the five keys added or overwritten, and every other key keeps its value. Reading the five fields back gives the reading that was written. |
| `Monitor.OverwriteReadingOf` | pms.py:86-91 | Writing back the five fields a record already holds leaves the record unchanged. |
| `Monitor.OverwriteForgetsPrevious` | pms.py:86-91 | After a sample, a five-field record does not depend on what it held before. |
| `Monitor.SampleAllZeroReplies` | pms.py:86-118 | With channels 0 and 1 configured and an all-zero reply, both ADC fields read 100. The probe's values, or its None markers, are stored as they come. |
| `Monitor.PlantMonitor.constructor` | pms.py:16-26 | Takes the configured name, runs `database_init` on it, and starts the record at five zero fields. No connection is left open. |
| `Monitor.PlantMonitor.DatabaseInit` | pms.py:28-55 | Changes the filesystem as `InitEffect` describes and leaves the count of open connections unchanged. |
| `Monitor.PlantMonitor.InsertToDb` | pms.py:57-84 | Changes the filesystem as `InsertEffect` describes for the record's reading, at `"pms.db"`. Every connection it opens is closed. |
| `Monitor.PlantMonitor.InsertInto` | pms.py:59-84 | The guarded open, insert, commit or rollback, and close at a given path. The result is `InsertAt`, and no connection stays open. |
| `Monitor.PlantMonitor.InsertToConfiguredDb` | pms.py:57-84 | The corrected insert: the same effect at the configured path. |
| `Monitor.PlantMonitor.GetSensorDate` | pms.py:86-91 | The record becomes the old record overwritten with `Sample(...)`, and it still has exactly the five keys. |

## Left out

- `adc_init` and the SPI transfer (`spidev.SpiDev`, `open(0, 0)`, `xfer2`) are hardware I/O. The converter's 3-byte reply is a parameter. An open failure, which is fatal in the source, is not modelled.
- `Adafruit_DHT.read_retry` is an opaque driver with its own retries and timing. Its (humidity, temperature) result is an input, `ProbeRead`, whose values are not interpreted.
- The SQLite engine, SQL text, cursors and column affinity are not modelled. In particular, the integer timestamp is stored as a `Value`, not converted to the text column type. Which statement raises is a `Fault` parameter, not derived from the engine.
- `read_config` (file I/O and JSON parsing) is not modelled. The configuration is given as a `Json` value.
- `get_timestamp` reads the wall clock. The timestamp is an input.
- Logging, the `__main__` block, the endless loop with `sleep`, and the exit code are process plumbing.
- Floating point: `raw / 10.24` is computed on the exact rational `raw * 25 / 256`, not on IEEE doubles.
- Monitor.PlantMonitor.GetSensorDate: requires both ADC channels to be configured as integers, booleans or floats outside 0..7. A float inside 0..7 makes the source raise `TypeError` at the shift on pms.py:103, and a string, list, dict or null channel makes it raise at the comparison on pms.py:100; the model does not represent these exceptions.
- Monitor.PlantMonitor.constructor: requires `database_name` to be a string. `os.path.exists` also accepts integers (file descriptors), and the model does not follow that path.
- `deep_get` takes keys only as strings, because JSON object keys are strings.
- Paths are compared as strings. Two spellings of one file, such as `"./pms.db"` and `"pms.db"`, count as two files, so path aliasing is not modelled.
- Concurrent writers to the database file are not modelled, because the system assumes a single writer.

## Findings

| source | as written | input that shows it | evidently intended | confidence | as-written member | corrected member |
|---|---|---|---|---|---|---|
| pms.py:60-64 | `insert_to_db` checks and opens the literal `"pms.db"`, while `database_init` creates the configured `db_name`. | `database_name` is `"data.db"`, a different file, and no `"pms.db"` exists. `database_init` creates `data.db`, and every later insert drops its reading. | Insert into `self.db_name`, the file `database_init` created and the log messages name. | high; not executed | `Store.InsertIgnoresConfiguredName` | `Store.InsertConfiguredStores` |
