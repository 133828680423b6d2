/**
 * The importer of monitor/importer.go: it turns each `ConsumerFullOffset`
 * record into a tagged point, appends it to a batch, and hands the batch
 * to the store when it grows past a size threshold or when enough time has
 * passed since the last write. The background loop over the channel is
 * modelled sequentially: records arrive one at a time, in channel order.
 * The clock, the store's point validation and the store's write result are
 * parameters of each step.
 */
module Monitor {
  import opened Metric
  import opened Wrappers
  import Config

  /** The thresholds `NewImporter` fixes. */
  const DefaultThreshold: int := 10
  const DefaultMaxTimeGap: int := 10

  const TopicTag: string := "topic"
  const GroupTag: string := "consumer_group"
  const ClusterTag: string := "cluster"

  const OffsetField: string := "offsize"
  const LogSizeField: string := "logsize"
  const LagField: string := "lag"

  /** One point of a write batch, at second precision. */
  datatype Point = Point(
    Measurement: string,
    Tags: map<string, string>,
    Fields: map<string, int>,
    Time: int)

  /** The three tags every point carries before the configured extra tags are laid over them. */
  function FixedTags(msg: ConsumerFullOffset): map<string, string>
  {
    map[TopicTag := msg.Topic, GroupTag := msg.Group, ClusterTag := msg.Cluster]
  }

  /** The tags of a record's point: the fixed tags overlaid by `extra`; an extra tag wins a collision. */
  function PointTags(msg: ConsumerFullOffset, extra: map<string, string>): (tags: map<string, string>)
    ensures tags.Keys == {TopicTag, GroupTag, ClusterTag} + extra.Keys
    ensures forall k :: k in extra ==> tags[k] == extra[k]
    ensures TopicTag !in extra ==> tags[TopicTag] == msg.Topic
    ensures GroupTag !in extra ==> tags[GroupTag] == msg.Group
    ensures ClusterTag !in extra ==> tags[ClusterTag] == msg.Cluster
  {
    FixedTags(msg) + extra
  }

  /** Builds the tag map as the importer does: the fixed tags, then one assignment per extra tag. */
  method MakeTags(msg: ConsumerFullOffset, extra: map<string, string>) returns (tags: map<string, string>)
    ensures tags == PointTags(msg, extra)
  {
    tags := FixedTags(msg);
    var rest := extra.Keys;
    while rest != {}
      invariant rest <= extra.Keys
      invariant tags.Keys == FixedTags(msg).Keys + (extra.Keys - rest)
      invariant forall k :: k in extra && k !in rest ==> tags[k] == extra[k]
      invariant forall k :: k in FixedTags(msg) && (k !in extra || k in rest) ==> tags[k] == FixedTags(msg)[k]
      decreases rest
    {
      var k :| k in rest;
      tags := tags[k := extra[k]];
      rest := rest - {k};
    }
  }

  /** The fields of a record's point; the lag is recomputed from the two offsets, in 64-bit arithmetic. */
  function PointFields(msg: ConsumerFullOffset): map<string, int>
  {
    map[OffsetField := msg.Offset, LogSizeField := msg.MaxOffset, LagField := Sub64(msg.MaxOffset, msg.Offset)]
  }

  /** The point the importer builds for `msg` under the store settings `cfg`. */
  function BuildPoint(cfg: Config.InfluxDB, msg: ConsumerFullOffset): Point
  {
    Point(cfg.Measurement, PointTags(msg, cfg.ExtraTags), PointFields(msg), MillisToSeconds(msg.Timestamp))
  }

  /** The loop body's construction of a record's point: tags, fields and time in seconds. */
  method MakePoint(cfg: Config.InfluxDB, msg: ConsumerFullOffset) returns (point: Point)
    ensures point == BuildPoint(cfg, msg)
  {
    var tags := MakeTags(msg, cfg.ExtraTags);
    var fields := PointFields(msg);
    var seconds := MillisToSeconds(msg.Timestamp);
    point := Point(cfg.Measurement, tags, fields, seconds);
  }

  /**
   * The lag field is Go's 64-bit `MaxOffset - Offset`: the exact difference,
   * negative ones included, whenever it fits in 64 bits, and the wrapped one
   * otherwise; the record's own `Lag` plays no part in the point.
   */
  lemma LagFromOffsets(cfg: Config.InfluxDB, msg: ConsumerFullOffset, lag: int64)
    ensures BuildPoint(cfg, msg).Fields.Keys == {OffsetField, LogSizeField, LagField}
    ensures BuildPoint(cfg, msg).Fields[OffsetField] == msg.Offset
    ensures BuildPoint(cfg, msg).Fields[LogSizeField] == msg.MaxOffset
    ensures BuildPoint(cfg, msg).Fields[LagField] == Sub64(msg.MaxOffset, msg.Offset)
    ensures MinInt64 <= msg.MaxOffset - msg.Offset <= MaxInt64 ==>
              BuildPoint(cfg, msg).Fields[LagField] == msg.MaxOffset - msg.Offset
    ensures MinInt64 <= msg.MaxOffset - msg.Offset <= MaxInt64 && msg.Offset > msg.MaxOffset ==>
              BuildPoint(cfg, msg).Fields[LagField] < 0
    ensures BuildPoint(cfg, msg.(Lag := lag)) == BuildPoint(cfg, msg)
  {
  }

  /** A lag that overflows wraps: a log size of MinInt64 and an offset of 1 give MaxInt64. */
  lemma LagWrapsExample()
    ensures Sub64(MinInt64, 1) == MaxInt64
  {
  }

  /** The point's time is the record's millisecond timestamp truncated to whole seconds. */
  lemma PointTimeInSeconds(cfg: Config.InfluxDB, msg: ConsumerFullOffset)
    ensures var t := BuildPoint(cfg, msg).Time;
            if msg.Timestamp >= 0 then t * 1000 <= msg.Timestamp < t * 1000 + 1000
            else t * 1000 - 1000 < msg.Timestamp <= t * 1000
  {
  }

  /** The concatenation of a sequence of batches. */
  function Flatten<T>(batches: seq<seq<T>>): seq<T>
  {
    if |batches| == 0 then [] else batches[0] + Flatten(batches[1..])
  }

  lemma {:induction false} FlattenSnoc<T>(batches: seq<seq<T>>, last: seq<T>)
    ensures Flatten(batches + [last]) == Flatten(batches) + last
  {
    if |batches| == 0 {
      assert batches + [last] == [last];
    } else {
      assert (batches + [last])[1..] == batches[1..] + [last];
      FlattenSnoc(batches[1..], last);
    }
  }

  /** Batches of equal size `n` hold `n` points each, so `|batches| * n` points in all. */
  lemma {:induction false} FlattenUniformLength<T>(batches: seq<seq<T>>, n: nat)
    requires forall i :: 0 <= i < |batches| ==> |batches[i]| == n
    ensures |Flatten(batches)| == |batches| * n
  {
    if |batches| > 0 {
      FlattenUniformLength(batches[1..], n);
    }
  }

  /** Non-empty batches hold at least one point each. */
  lemma {:induction false} FlattenNonEmptyLength<T>(batches: seq<seq<T>>)
    requires forall i :: 0 <= i < |batches| ==> |batches[i]| >= 1
    ensures |batches| <= |Flatten(batches)|
  {
    if |batches| > 0 {
      FlattenNonEmptyLength(batches[1..]);
    }
  }

  /**
   * What the store client answers while the importer handles one record:
   * whether the point was accepted, the two clock readings of the loop body
   * (before and after a write), and whether a write succeeded.
   */
  datatype Tick = Tick(PointOk: bool, Now: int, Later: int, WriteOk: bool)

  /** The points built from `msgs`, in arrival order, skipping those the store client refused. */
  function Built(cfg: Config.InfluxDB, msgs: seq<ConsumerFullOffset>, ticks: seq<Tick>): (r: seq<Point>)
    requires |ticks| == |msgs|
    ensures |r| <= |msgs|
  {
    if |msgs| == 0 then []
    else (if ticks[0].PointOk then [BuildPoint(cfg, msgs[0])] else []) + Built(cfg, msgs[1..], ticks[1..])
  }

  lemma {:induction false} BuiltSnoc(cfg: Config.InfluxDB, msgs: seq<ConsumerFullOffset>, ticks: seq<Tick>,
                                      msg: ConsumerFullOffset, tick: Tick)
    requires |ticks| == |msgs|
    ensures Built(cfg, msgs + [msg], ticks + [tick]) ==
              Built(cfg, msgs, ticks) + (if tick.PointOk then [BuildPoint(cfg, msg)] else [])
  {
    if |msgs| == 0 {
      assert msgs + [msg] == [msg] && ticks + [tick] == [tick];
    } else {
      assert (msgs + [msg])[1..] == msgs[1..] + [msg];
      assert (ticks + [tick])[1..] == ticks[1..] + [tick];
      BuiltSnoc(cfg, msgs[1..], ticks[1..], msg, tick);
    }
  }

  datatype Phase = Created | Running | Aborted | Stopped

  /** The importer; the fields of `Importer` and the locals of its loop (`bp`, `lastCommit`). */
  class Importer {
    const cfg: Config.InfluxDB
    const threshold: int
    const maxTimeGap: int
    var phase: Phase
    var batch: seq<Point>
    var lastCommit: int
    /** Every point built so far, in arrival order. */
    ghost var built: seq<Point>
    /** The batch of every write attempt, in order, and whether it succeeded. */
    ghost var writes: seq<seq<Point>>
    ghost var outcomes: seq<bool>

    ghost predicate Valid()
      reads this
    {
      && 0 <= threshold
      && |batch| <= threshold
      && |outcomes| == |writes|
      && (forall i :: 0 <= i < |writes| ==> 1 <= |writes[i]| <= threshold + 1)
      && Flatten(writes) + batch == built
      && (phase == Created ==> batch == [] && built == [])
    }

    /** Whether the loop writes a batch that holds `size` points, `elapsed` seconds after the last write. */
    predicate FlushDue(size: int, elapsed: int)
    {
      size > threshold || elapsed >= maxTimeGap
    }

    /** `NewImporter`: threshold 10, time gap 10, nothing buffered yet. */
    constructor (cfg: Config.InfluxDB)
      ensures Valid()
      ensures this.cfg == cfg && threshold == DefaultThreshold && maxTimeGap == DefaultMaxTimeGap
      ensures phase == Created && batch == [] && built == [] && writes == [] && outcomes == []
    {
      this.cfg := cfg;
      threshold, maxTimeGap := DefaultThreshold, DefaultMaxTimeGap;
      phase, batch, lastCommit := Created, [], 0;
      built, writes, outcomes := [], [], [];
    }

    /**
     * `start`: if the database-creation command fails the importer panics
     * and its loop never starts; otherwise the loop starts with an empty
     * batch and the last write time set to the clock reading `now`.
     */
    method Start(createOk: bool, now: int) returns (started: bool)
      requires Valid() && phase == Created
      modifies this
      ensures Valid()
      ensures started == createOk
      ensures started ==> phase == Running && batch == [] && lastCommit == now
      ensures !started ==> phase == Aborted && batch == old(batch) && lastCommit == old(lastCommit)
      ensures built == old(built) && writes == old(writes) && outcomes == old(outcomes)
    {
      started := createOk;
      if createOk {
        phase, batch, lastCommit := Running, [], now;
      } else {
        phase := Aborted;
      }
    }

    /**
     * One pass of the loop body for `msg`. Returns the batch handed to
     * the store when a write happens. A refused point is skipped and
     * nothing else changes; after any write attempt the batch is empty and
     * the last write time is the clock reading `later`, whether or not the
     * write succeeded.
     */
    method Handle(msg: ConsumerFullOffset, tick: Tick) returns (sent: Option<seq<Point>>)
      requires Valid() && phase == Running
      modifies this
      ensures Valid() && phase == Running
      ensures !tick.PointOk ==>
                && sent.None?
                && batch == old(batch) && lastCommit == old(lastCommit)
                && built == old(built) && writes == old(writes) && outcomes == old(outcomes)
      ensures tick.PointOk ==> built == old(built) + [BuildPoint(cfg, msg)]
      ensures tick.PointOk ==> (sent.Some? <==> FlushDue(|old(batch)| + 1, tick.Now - old(lastCommit)))
      ensures sent.Some? ==>
                && sent.value == old(batch) + [BuildPoint(cfg, msg)]
                && batch == [] && lastCommit == tick.Later
                && writes == old(writes) + [sent.value] && outcomes == old(outcomes) + [tick.WriteOk]
      ensures tick.PointOk && sent.None? ==>
                && batch == old(batch) + [BuildPoint(cfg, msg)] && lastCommit == old(lastCommit)
                && writes == old(writes) && outcomes == old(outcomes)
    {
      var point := MakePoint(cfg, msg);
      if !tick.PointOk {
        return None;
      }
      assert Flatten(writes) + (batch + [point]) == built + [point];
      batch := batch + [point];
      built := built + [point];
      if |batch| > threshold || tick.Now - lastCommit >= maxTimeGap {
        sent := Some(batch);
        FlattenSnoc(writes, batch);
        writes, outcomes := writes + [batch], outcomes + [tick.WriteOk];
        batch := [];
        lastCommit := tick.Later;
        assert Flatten(writes) + batch == built;
      } else {
        sent := None;
      }
    }

    /**
     * `stop`: the input closes and the loop exits. The pending batch, at
     * most `threshold` points, is returned and never written.
     */
    method Stop() returns (dropped: seq<Point>)
      requires Valid() && phase == Running
      modifies this
      ensures Valid() && phase == Stopped
      ensures dropped == old(batch) && |dropped| <= threshold
      ensures Flatten(writes) + dropped == built
      ensures batch == old(batch) && lastCommit == old(lastCommit)
      ensures built == old(built) && writes == old(writes) && outcomes == old(outcomes)
    {
      dropped := batch;
      phase := Stopped;
    }
  }

  /** Every clock reading of `ticks` lies in the window of length `gap` that opens at `from`. */
  predicate WithinWindow(ticks: seq<Tick>, from: int, gap: int)
  {
    forall i :: 0 <= i < |ticks| ==> ticks[i].Now < from + gap && from <= ticks[i].Later
  }

  /**
   * The importer's whole life after a successful start: every record of
   * the channel, in order, then `stop`. Returns the batches handed to the
   * store and the batch dropped at the end. When every clock reading falls
   * inside one time window, only the size trigger fires: each write then
   * carries exactly `threshold + 1` points, and with at most `threshold`
   * points dropped, N built points give N / (threshold + 1) writes, rounded down.
   */
  method Consume(imp: Importer, msgs: seq<ConsumerFullOffset>, ticks: seq<Tick>)
    returns (sent: seq<seq<Point>>, dropped: seq<Point>)
    requires imp.Valid() && imp.phase == Running && imp.built == [] && imp.writes == []
    requires |ticks| == |msgs|
    modifies imp
    ensures imp.Valid() && imp.phase == Stopped
    ensures sent == imp.writes
    ensures Flatten(sent) + dropped == Built(imp.cfg, msgs, ticks)
    ensures forall i :: 0 <= i < |sent| ==> 1 <= |sent[i]| <= imp.threshold + 1
    ensures |dropped| <= imp.threshold
    ensures |sent| <= |Built(imp.cfg, msgs, ticks)|
    ensures WithinWindow(ticks, old(imp.lastCommit), imp.maxTimeGap) ==>
              && (forall i :: 0 <= i < |sent| ==> |sent[i]| == imp.threshold + 1)
              && |Built(imp.cfg, msgs, ticks)| == |sent| * (imp.threshold + 1) + |dropped|
  {
    ghost var window := WithinWindow(ticks, imp.lastCommit, imp.maxTimeGap);
    ghost var from := imp.lastCommit;
    sent := [];
    var n := 0;
    while n < |msgs|
      invariant 0 <= n <= |msgs|
      invariant imp.Valid() && imp.phase == Running
      invariant sent == imp.writes
      invariant imp.built == Built(imp.cfg, msgs[..n], ticks[..n])
      invariant window ==> from <= imp.lastCommit
      invariant window ==> forall i :: 0 <= i < |sent| ==> |sent[i]| == imp.threshold + 1
      decreases |msgs| - n
    {
      BuiltSnoc(imp.cfg, msgs[..n], ticks[..n], msgs[n], ticks[n]);
      assert msgs[..n + 1] == msgs[..n] + [msgs[n]];
      assert ticks[..n + 1] == ticks[..n] + [ticks[n]];
      var out := imp.Handle(msgs[n], ticks[n]);
      if out.Some? {
        sent := sent + [out.value];
      }
      n := n + 1;
    }
    assert msgs[..n] == msgs && ticks[..n] == ticks;
    dropped := imp.Stop();
    FlattenNonEmptyLength(sent);
    if window {
      FlattenUniformLength(sent, imp.threshold + 1);
    }
  }
}
