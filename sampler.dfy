/**
 * The polling step at the end of the sketch's `loop`: every 5000 ms of
 * `millis()` the BME280 is triggered in forced mode and the cached
 * temperature, humidity and pressure are overwritten. `millis()` is a
 * 32-bit `unsigned long` that wraps about every 49.7 days.
 */
module Sampler {
  import opened Platform

  /** `delayTime`: the resampling interval in milliseconds. */
  const DelayTime: ULong := 5000

  /** One forced-mode reading as `readSensorValues` stores it (pressure already in hPa). */
  datatype Sample = Sample(temperature: Float32, humidity: Float32, pressure: Float32)

  /** The cached globals: `lastSensorRead`, `temperature`, `humidity`, `pressure`. */
  datatype Snapshot = Snapshot(lastSensorRead: ULong, temperature: Float32, humidity: Float32, pressure: Float32)

  /** The globals at power-on: no reading yet, all zero. */
  const Boot: Snapshot := Snapshot(0, FloatZero, FloatZero, FloatZero)

  /** `currentMillis - lastSensorRead >= delayTime`, on `unsigned long`. */
  predicate Due(now: ULong, lastSensorRead: ULong) {
    WrapSub(now, lastSensorRead) >= DelayTime
  }

  /**
   * The snapshot after one polling step at `millis() == now`, when the
   * sensor would deliver `reading`. The reading is stored unconditionally
   * (a failed read's NaN included) and `lastSensorRead` moves to `now`.
   */
  function Poll(s: Snapshot, now: ULong, reading: Sample): Snapshot {
    if Due(now, s.lastSensorRead) then
      Snapshot(now, reading.temperature, reading.humidity, reading.pressure)
    else
      s
  }

  /**
   * The wrapped difference of two `millis()` values is the true elapsed
   * time whenever less than 2^32 ms passed between them: the test survives
   * rollover.
   */
  lemma {:induction false} ElapsedAcrossRollover(tLast: nat, tNow: nat)
    requires tLast <= tNow < tLast + ULongModulus
    ensures WrapSub(tNow % ULongModulus, tLast % ULongModulus) == tNow - tLast
  {
    var a, b := tNow % ULongModulus, tLast % ULongModulus;
    var k := tNow / ULongModulus - tLast / ULongModulus;
    assert tNow - tLast == k * ULongModulus + (a - b);
  }

  /** A step resamples iff at least 5000 ms of true time passed since the last read. */
  lemma DueAcrossRollover(tLast: nat, tNow: nat)
    requires tLast <= tNow < tLast + ULongModulus
    ensures Due(tNow % ULongModulus, tLast % ULongModulus) <==> tNow - tLast >= DelayTime
  {
    ElapsedAcrossRollover(tLast, tNow);
  }

  /**
   * A step that resamples stamps `now` and the new reading, whatever the
   * reading is; a step that does not leaves every cached value alone.
   */
  lemma PollEffect(s: Snapshot, now: ULong, reading: Sample)
    ensures Due(now, s.lastSensorRead) ==>
              Poll(s, now, reading).lastSensorRead == now &&
              Poll(s, now, reading).temperature == reading.temperature &&
              Poll(s, now, reading).humidity == reading.humidity &&
              Poll(s, now, reading).pressure == reading.pressure
    ensures !Due(now, s.lastSensorRead) ==> Poll(s, now, reading) == s
  {
  }

  /** Right after a read the next step at the same time does not read again. */
  lemma NoSecondReadAtSameTime(s: Snapshot, now: ULong, r1: Sample, r2: Sample)
    ensures Poll(Poll(s, now, r1), now, r2) == Poll(s, now, r1)
  {
  }

  /** One iteration of `loop` as seen by the sampler. */
  datatype Tick = Tick(now: ULong, reading: Sample)

  /** The snapshot after a run of loop iterations. */
  function Run(s: Snapshot, ticks: seq<Tick>): Snapshot
    decreases |ticks|
  {
    if ticks == [] then s else Run(Poll(s, ticks[0].now, ticks[0].reading), ticks[1..])
  }

  /** How many sensor reads a run of loop iterations performs. */
  function Reads(s: Snapshot, ticks: seq<Tick>): nat
    decreases |ticks|
  {
    if ticks == [] then 0
    else
      (if Due(ticks[0].now, s.lastSensorRead) then 1 else 0)
      + Reads(Poll(s, ticks[0].now, ticks[0].reading), ticks[1..])
  }

  /**
   * `times` are the true (unwrapped) instants of the iterations and
   * `millis()` is their value modulo 2^32. The loop runs at least once
   * every 2^32 - 5000 ms, and the first iteration comes less than 2^32 ms
   * after the last read at `lastAbs`.
   */
  predicate Paced(lastAbs: nat, ticks: seq<Tick>, times: seq<nat>) {
    && |ticks| == |times|
    && (forall i :: 0 <= i < |ticks| ==> ticks[i].now == times[i] % ULongModulus)
    && (|times| > 0 ==> lastAbs <= times[0] < lastAbs + ULongModulus)
    && (forall i :: 0 < i < |times| ==> times[i - 1] <= times[i] <= times[i - 1] + ULongModulus - DelayTime)
  }

  /**
   * Rate limit across rollovers: a run that starts from a read at true
   * time `lastAbs` performs at most one read per 5000 ms up to its last
   * iteration; and its final snapshot is the starting one, or its
   * `lastSensorRead` is the `millis()` value of one of the run's iterations.
   */
  lemma {:induction false} ReadsRateLimited(s: Snapshot, lastAbs: nat, ticks: seq<Tick>, times: seq<nat>)
    requires s.lastSensorRead == lastAbs % ULongModulus
    requires Paced(lastAbs, ticks, times)
    ensures |times| > 0 ==> Reads(s, ticks) * DelayTime <= times[|times| - 1] - lastAbs
    ensures Run(s, ticks) == s ||
            exists i :: 0 <= i < |times| && Run(s, ticks).lastSensorRead == times[i] % ULongModulus
    decreases |ticks|
  {
    if ticks != [] {
      var t0 := times[0];
      var s' := Poll(s, ticks[0].now, ticks[0].reading);
      DueAcrossRollover(lastAbs, t0);
      var lastAbs' := if Due(ticks[0].now, s.lastSensorRead) then t0 else lastAbs;
      assert s'.lastSensorRead == lastAbs' % ULongModulus;
      assert Paced(lastAbs', ticks[1..], times[1..]);
      ReadsRateLimited(s', lastAbs', ticks[1..], times[1..]);
      if Run(s', ticks[1..]) == s' {
        if s' != s {
          assert Run(s, ticks).lastSensorRead == times[0] % ULongModulus;
        }
      } else {
        var i :| 0 <= i < |times[1..]| && Run(s', ticks[1..]).lastSensorRead == times[1..][i] % ULongModulus;
        assert Run(s, ticks).lastSensorRead == times[i + 1] % ULongModulus;
      }
    }
  }
}
