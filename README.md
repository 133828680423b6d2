# burrowx importer and configuration defaulting, in Dafny

This project models two sequential parts of burrowx, a Kafka consumer-lag monitor.

1. **The importer** (`monitor/importer.go`). It receives `ConsumerFullOffset` records and turns each one into a point for the InfluxDB time-series store:
   - tags: `topic`, `consumer_group` and `cluster`, overlaid by the configured extra tags;
   - fields: `offsize`, `logsize` and `lag`;
   - time: the record's millisecond timestamp in whole seconds.

   The points go into a batch. The batch is written when it holds more than `threshold` points, or when `maxTimeGap` seconds have passed since the last write. The batch and the last-write time are reset after every write attempt, whether or not it succeeded. When the input closes, the pending batch is dropped.
2. **Configuration defaulting** (`config/config.go`, `(*Config).init`). This step fills in defaults after the configuration is decoded:
   - the `"default"` client profile;
   - the measurement name `consumer_metrics`;
   - for each Kafka cluster, the offsets topic `__consumer_offsets` and the client profile `"default"`.

Modules:

- `Wrappers` (`wrappers.dfy`): the `Option` datatype used by both other modules.
- `Metric` (`metric.dfy`): the `ConsumerFullOffset` record, Go's `int64` with two's-complement wrap-around for subtraction, and Go's truncating division of a millisecond timestamp by 1000.
- `Config` (`config.dfy`): the record shapes of `config.go`. `Defaulted` is a value-level specification of `init`. Lemmas say what `Defaulted` establishes and what it preserves, and that it is idempotent. The class `Config` has an imperative `Init`. `Init` writes the Kafka defaults through each entry object (the Go map holds pointers) and is proved to equal `Defaulted`.
- `Monitor` (`importer.dfy`): point construction and the class `Importer`.
  - `Importer` holds the fields of the Go struct plus the loop's locals: `batch` (Go's `bp`) and `lastCommit`.
  - Three ghost histories record what happened: the points built, the batches handed to the store, and the outcome of each write (one per write).
  - `Valid()` ties them together: every write has between 1 and `threshold + 1` points, the pending batch has at most `threshold` points, and all writes concatenated, followed by the pending batch, equal the built points in arrival order.
  - `Consume` runs the loop over a whole input sequence and then `stop`.

Inputs the model cannot see are parameters:
- the database-creation result;
- whether `client.NewPoint` accepted a point;
- the two clock readings in the loop body (before the flush test, line 79, and after the write, line 85);
- whether `Write` succeeded.

The per-record inputs are grouped in a `Tick`.

Facts about the code that the model keeps:
- there is no offset aggregation in the code, only struct declarations;
- on stop the pending batch is dropped, so records can be lost (monitor/importer.go:91-92);
- the time trigger fires once the gap is reached (`>=`, monitor/importer.go:79).

## Model

| member | source | states |
|---|---|---|
| `Metric.Sub64` | monitor/importer.go:69 | `MaxOffset - Offset` in int64 is exact when it fits and otherwise congruent modulo 2^64 (Go wrap-around) |
| `Metric.MillisToSeconds` | monitor/importer.go:72 | `Timestamp / 1000` truncates toward zero: bracket `s*1000 <= ms < s*1000+1000` for non-negative input, the mirrored bracket for negative input |
| `Metric.MillisToSecondsExamples` | monitor/importer.go:72 | 1500 ms gives 1 s and -1500 ms gives -1 s (not -2 as Euclidean division would) |
| `Monitor.PointTags` | monitor/importer.go:55-63 | the tag keys are the three fixed ones plus the extra keys; an extra tag wins every collision; fixed tags not overridden carry the record's topic, group and cluster |
| `Monitor.MakeTags` | monitor/importer.go:55-63 | the loop that copies the extra tags into the fixed tag map yields exactly `PointTags` |
| `Monitor.MakePoint` | monitor/importer.go:55-73 | the loop body builds the point `BuildPoint(cfg, msg)` (measurement, tags, fields, seconds) |
| `Monitor.LagFromOffsets` | monitor/importer.go:66-70 | the fields are exactly `offsize = Offset`, `logsize = MaxOffset`, `lag = Sub64(MaxOffset, Offset)` (Go's wrapping int64 subtraction); when `MaxOffset - Offset` fits in int64 the lag equals it and is negative when Offset exceeds MaxOffset (no clamping); the record's own `Lag` never affects the point |
| `Monitor.LagWrapsExample` | monitor/importer.go:69 | an overflowing lag wraps: log size MinInt64 and offset 1 give lag MaxInt64 |
| `Monitor.PointTimeInSeconds` | monitor/importer.go:72 | a point's time is its record's millisecond timestamp truncated to seconds |
| `Monitor.FlattenSnoc` | monitor/importer.go:78-81 | appending one more written batch appends its points to the concatenation of all writes |
| `Monitor.FlattenUniformLength` | monitor/importer.go:79 | batches all of size n hold `count * n` points |
| `Monitor.FlattenNonEmptyLength` | monitor/importer.go:78-80 | non-empty batches number no more than the points they hold |
| `Monitor.Built` | monitor/importer.go:54-78 | the points built from a record sequence, refused points skipped, never more than the records |
| `Monitor.BuiltSnoc` | monitor/importer.go:54-78 | one more record adds its point at the end exactly when the point is accepted |
| `Monitor.Importer.constructor` | monitor/importer.go:22-29 | a new importer has threshold 10, time gap 10, an empty batch and empty histories |
| `Monitor.Importer.Start` | monitor/importer.go:43-53 | if database creation fails the loop never starts; otherwise it runs with an empty batch and `lastCommit` equal to the start clock reading |
| `Monitor.Importer.Handle` | monitor/importer.go:54-90 | a refused point changes nothing; otherwise the point is appended and a write happens exactly when the batch exceeds `threshold` or `now - lastCommit >= maxTimeGap`; the written batch is the old batch plus the point; after any write, successful or not, the batch is empty and `lastCommit` is the second clock reading; `Valid()` is kept |
| `Monitor.Importer.Stop` | monitor/importer.go:101-104 | stopping returns the pending batch (at most `threshold` points), writes nothing, and the writes followed by the dropped batch are all the built points |
| `Monitor.Consume` | monitor/importer.go:54-92 | over a whole input: the written batches concatenated, followed by the dropped batch, are the built points in arrival order; every write holds 1 to `threshold + 1` points; at most one write per built point; when all clock readings fall in one window only the size trigger fires, each write holds exactly `threshold + 1` points and the built count is `writes * (threshold + 1) + dropped` |
| `Config.NewDefaultProfile` | config/config.go:81-84 | the created profile has the general client id, TLS off and every other setting empty |
| `Config.DefaultProfiles` | config/config.go:77-85 | a nil profile map becomes empty; `"default"` is then present; existing profiles, an existing `"default"` included, are unchanged; a missing `"default"` gets the new default profile |
| `Config.DefaultMeasurementName` | config/config.go:87-89 | an empty measurement becomes `consumer_metrics`; a non-empty one is kept |
| `Config.DefaultKafka` | config/config.go:91-98 | an empty offsets topic becomes `__consumer_offsets` and an empty client profile `"default"`; non-empty values, brokers, zookeepers and SASL settings are kept |
| `Config.DefaultKafkaIdempotent` | config/config.go:91-98 | defaulting an entry twice equals defaulting it once |
| `Config.DefaultClusters` | config/config.go:91-98 | the Kafka key set is kept and every entry is defaulted |
| `Config.DefaultClustersPointwise` | config/config.go:91-98 | a map holding the defaulted entry under every Kafka key is the defaulted Kafka map |
| `Config.DefaultedEstablishes` | config/config.go:76-99 | after `init`: `"default"` is a profile, the measurement is non-empty, every Kafka entry has a non-empty offsets topic and client profile |
| `Config.DefaultedPreserves` | config/config.go:76-99 | `init` leaves General, Zookeeper, the store settings other than the measurement, the Kafka key set, each entry's brokers, zookeepers and SASL, and every existing profile unchanged |
| `Config.WellDefaultedIsFixed` | config/config.go:76-99 | a configuration already satisfying the post-`init` properties is unchanged by `init` |
| `Config.DefaultedIdempotent` | config/config.go:76-99 | calling `init` twice gives the same result as calling it once |
| `Config.EntryValues` | config/config.go:33-43 | following every Kafka entry pointer keeps the key set and reads each entry's settings |
| `Config.DefaultEntries` | config/config.go:91-98 | the loop over the Kafka map, writing through entry pointers (two keys may share one), leaves every entry defaulted |
| `Config.KafkaCluster.ApplyDefaults` | config/config.go:92-97 | the two writes through one entry pointer default that entry |
| `Config.KafkaCluster.constructor` | config/config.go:33-43 | a decoded Kafka entry holds the given settings |
| `Config.Config.constructor` | config/config.go:21-52 | a decoded configuration holds the given settings |
| `Config.Config.DefaultTopLevel` | config/config.go:77-89 | the profile map and measurement get their defaults; General and Zookeeper are unchanged |
| `Config.Config.Init` | config/config.go:76-99 | the configuration after `init` is `Defaulted` of the configuration before it |

## Left out

- The offset aggregator. `monitor/metric.go` declares `TopicPartitionOffset`, `ConsumerOffset`, `TopicFullOffset` and the unexported `partitionMap` fields, but no code folds partition offsets. The model has no aggregator and does not invent one. `ConsumerFullOffset` is modelled without `partitionMap`.
- `NewImporter`'s HTTP client construction (monitor/importer.go:31-39): a foreign library call. The constructor models only the fields it sets.
- `runCmd`, `Query` and `Write` (monitor/importer.go:44, 80, 106-122): network I/O. Database creation and each write are boolean outcomes. A failed creation panics in Go; `Start` models that as the `Aborted` phase, in which the loop never runs.
- The goroutine, the channel of capacity 1000, the blocking `saveMsg` and the `stopped` handshake (monitor/importer.go:24, 48, 92, 97-104): concurrency. The channel is a sequence of records in arrival order. `Stop` requires a running importer: in Go, stopping an importer that never started blocks forever, and stopping twice panics.
- `time.Now()` (monitor/importer.go:53, 79, 85): readings are parameters with no assumption about their order. The subtraction `now - lastCommit` is unbounded here; Go's int64 overflow of clock arithmetic is not modelled.
- `client.NewPoint`'s validation rules (monitor/importer.go:73): an oracle boolean. The batch's database name and `"s"` precision setting (monitor/importer.go:49-52, 81-84) are not modelled beyond point times being in seconds.
- `log.Error` output (monitor/importer.go:75, 87).
- `ReadConfig`'s file open and JSON decoding and `errAndExit` (config/config.go:65-74, 101-106): I/O and process exit. The class constructors stand in for the decoded result.
- A `null` Kafka entry in the JSON makes Go's `init` dereference a nil pointer. Entries here are never null.
- Profiles are values: `init` only creates one and never writes through a profile pointer.
- `Config.Config.constructor`: the Kafka map of a decoded configuration is a constant field, because `init` writes through its entries but never replaces the map.
- `Monitor.Importer.constructor`: the importer keeps a copy of the store settings instead of a pointer, so later changes to the configuration are not seen. The importer only reads them.
