/** The adaptive write threshold of out_write: the bounded sleep loop that keeps the kernel
    buffer below the current threshold, and the controller that moves the current threshold
    towards its target. */
module AudioThreshold {
  import opened Options
  import opened AudioState

  const MIN_SLEEP_US := 2000
  const MAX_SLEEP_US := CONFIG_OUT.periodSize * SHORT_PERIOD_COUNT * 1000000 / OUT_RATE
  const STEP := CONFIG_OUT.periodSize / 4

  function Sum(s: seq<int>): int {
    if s == [] then 0 else Sum(s[..|s| - 1]) + s[|s| - 1]
  }

  lemma SumSnoc(s: seq<int>, x: int)
    ensures Sum(s + [x]) == Sum(s) + x
  {
    assert (s + [x])[..|s|] == s;
  }

  /** For the fill levels a kernel buffer can have, the loop's 32-bit ints never overflow:
      the total is at most the budget when one more sleep is added to it. */
  lemma NoOverflow(fill: int, threshold: int, total: int)
    requires 0 <= fill <= 4096 && 0 <= threshold && total <= 23219
    ensures total + (fill - threshold) * 1000000 / 44100 < 0x8000_0000
  {
    assert (fill - threshold) * 1000000 <= 4096 * 1000000;
  }

  /** Each sleep answers its own reading: that reading asked for at least the minimum, and the
      sleep is exactly what it asked for, except that the last may have been cut short. */
  ghost predicate Answers(sleeps: seq<int>, readings: nat -> Option<int>, asks: int -> int) {
    forall i :: 0 <= i < |sleeps| ==>
                  && readings(i).Some?
                  && 0 <= sleeps[i] <= asks(readings(i).value)
                  && 2000 <= asks(readings(i).value)
                  && (i < |sleeps| - 1 ==> sleeps[i] == asks(readings(i).value))
  }

  /** Why the loop ends after `polls` reads: the last one failed, or found little enough
      queued, or asks for too short a wait; or the sleep budget is spent. */
  ghost predicate Finished(polls: nat, sleeps: seq<int>, readings: nat -> Option<int>, asks: int -> int, threshold: int)
    requires polls > 0
  {
    var last := readings(polls - 1);
    || (polls == |sleeps| + 1 && (last.Some? ==> last.value <= threshold || asks(last.value) < 2000))
    || (polls == |sleeps| && Sum(sleeps) == 23219)
  }

  /** The sleep loop of out_write.  `readings(n)` is the fill level that the n-th timestamp
      read yields, or `None` when that read fails.  `polls` counts the reads made, `sleeps`
      lists the arguments given to usleep and `fill` is what `kernel_frames` holds at the end
      (`None` if it was never set).  `asks(f)` is the wait that a fill level `f` calls for. */
  method SleepLoop(threshold: int, asks: int -> int, readings: nat -> Option<int>)
    returns (fill: Option<int>, polls: nat, sleeps: seq<int>)
    ensures |sleeps| <= 12
    ensures Sum(sleeps) <= 23219
    ensures Answers(sleeps, readings, asks)
    ensures 0 < polls && Finished(polls, sleeps, readings, asks, threshold)
    // Every read but the last succeeded, and the fill level is that of the latest success.
    ensures forall k :: 0 <= k < polls - 1 ==> readings(k).Some?
    ensures fill == if readings(polls - 1).Some? || polls == 1 then readings(polls - 1) else readings(polls - 2)
  {
    fill, polls, sleeps := None, 0, [];
    var total := 0;
    var more := true;
    while more
      invariant more ==> polls == |sleeps| && total == Sum(sleeps) <= MAX_SLEEP_US
      invariant more ==> 2000 * |sleeps| <= total
      invariant more ==> fill == if polls == 0 then None else readings(polls - 1)
      invariant forall k :: 0 <= k < polls - 1 ==> readings(k).Some?
      invariant more && polls > 0 ==> readings(polls - 1).Some?
      invariant !more ==> 0 < polls
      invariant !more ==>
                  fill == if readings(polls - 1).Some? || polls == 1 then readings(polls - 1) else readings(polls - 2)
      invariant more ==> Exact(sleeps, readings, asks)
      invariant !more ==> |sleeps| <= 12 && Sum(sleeps) <= MAX_SLEEP_US && Answers(sleeps, readings, asks)
      invariant !more ==> 0 < polls && Finished(polls, sleeps, readings, asks, threshold)
      decreases more, MAX_SLEEP_US - total
    {
      var reading := readings(polls);
      polls := polls + 1;
      if reading.None? || reading.value <= threshold || asks(reading.value) < MIN_SLEEP_US {
        more := false;
        fill := if reading.None? then fill else reading;
      } else {
        fill := reading;
        var sleep := asks(reading.value);
        total := total + sleep;
        if total > MAX_SLEEP_US {
          sleep := MAX_SLEEP_US - (total - sleep);
          more := false;
        }
        SumSnoc(sleeps, sleep);
        ExtendAnswers(sleeps, sleep, readings, asks);
        sleeps := sleeps + [sleep];
      }
    }
  }

  /** Every sleep is exactly as long as its reading asks for. */
  ghost predicate Exact(sleeps: seq<int>, readings: nat -> Option<int>, asks: int -> int) {
    && Answers(sleeps, readings, asks)
    && forall i :: 0 <= i < |sleeps| ==> sleeps[i] == asks(readings(i).value)
  }

  lemma ExtendAnswers(sleeps: seq<int>, sleep: int, readings: nat -> Option<int>, asks: int -> int)
    requires Exact(sleeps, readings, asks) && readings(|sleeps|).Some?
    requires 0 <= sleep <= asks(readings(|sleeps|).value)
    requires MIN_SLEEP_US <= asks(readings(|sleeps|).value)
    ensures Answers(sleeps + [sleep], readings, asks)
    ensures sleep == asks(readings(|sleeps|).value) ==> Exact(sleeps + [sleep], readings, asks)
  {
  }

  /** The sleep loop with the drain time of the output PCM. */
  method Throttle(threshold: int, readings: nat -> Option<int>)
    returns (fill: Option<int>, polls: nat, sleeps: seq<int>)
    ensures |sleeps| <= 12
    ensures Sum(sleeps) <= 23219
    ensures Answers(sleeps, readings, f => (f - threshold) * 1000000 / 44100)
    ensures 0 < polls && Finished(polls, sleeps, readings, f => (f - threshold) * 1000000 / 44100, threshold)
    ensures forall k :: 0 <= k < polls - 1 ==> readings(k).Some?
    ensures fill == if readings(polls - 1).Some? || polls == 1 then readings(polls - 1) else readings(polls - 2)
  {
    fill, polls, sleeps := SleepLoop(threshold, f => (f - threshold) * 1000000 / 44100, readings);
  }

  // ---------- the controller ----------

  function PeriodCount(t: BufferType): nat {
    if t.Long? then LONG_PERIOD_COUNT else SHORT_PERIOD_COUNT
  }

  /** Adapt the target to the buffer type read under the device lock. */
  function Retarget(o: Out, wanted: BufferType): Out
    requires o.config.PcmConfig?
  {
    if wanted == o.bufferType then o
    else
      var target := o.config.periodSize * PeriodCount(wanted);
      o.(target := target,
         threshold := if o.bufferType.Unknown? then target else o.threshold,
         bufferType := wanted)
  }

  /** The threshold after one non-SCO write whose last reading found `fill` frames queued. */
  function Adjust(threshold: int, target: int, fill: int): int {
    if threshold > target then
      (if threshold - STEP < target then target else threshold - STEP)
    else if threshold < target then
      (if threshold + STEP > target then target else threshold + STEP)
    else if fill < target && target - fill > 1024 then
      (fill / 512 + 1) * 512 + STEP
    else threshold
  }

  predicate ThresholdOk(target: int, threshold: int) {
    (target == 1024 || target == 4096) && 640 <= threshold <= 4096
  }

  /** What holds of an output stream at all times. */
  predicate Controlled(o: Out) {
    !o.bufferType.Unknown? ==>
      ThresholdOk(o.target, o.threshold) && (o.target == 4096 <==> o.bufferType.Long?)
  }

  function Throttled(o: Out, wanted: BufferType, fill: int): Out
    requires o.config.PcmConfig?
  {
    var p := Retarget(o, wanted);
    p.(threshold := Adjust(p.threshold, p.target, fill))
  }

  /** One non-SCO write, spelled out.  The target is that of the wanted type; a stream that had a
      type keeps its threshold, one that had none starts at the target.  From there the threshold
      moves by 128 or to the target; at the target it is reset when more than 1024 frames are
      missing, to the next multiple of 512 above the fill level, and 128.  Nothing else changes. */
  lemma WriteMeans(o: Out, wanted: BufferType, fill: int)
    requires o.config.PcmConfig?
    ensures var p := Throttled(o, wanted, fill);
            var base := if o.bufferType.Unknown? && !wanted.Unknown? then p.target else o.threshold;
            && p == o.(bufferType := wanted, target := p.target, threshold := p.threshold)
            && p.target == (if wanted == o.bufferType then o.target
                            else o.config.periodSize * (if wanted.Long? then 8 else 2))
            && (base > p.target ==> p.threshold == if base - 128 < p.target then p.target else base - 128)
            && (base < p.target ==> p.threshold == if base + 128 > p.target then p.target else base + 128)
            && (base == p.target && p.target - fill <= 1024 ==> p.threshold == p.target)
            && (base == p.target && p.target - fill > 1024 ==>
                  p.threshold % 512 == 128 && fill + 128 < p.threshold <= fill + 640)
  {
    assert fill == fill / 512 * 512 + fill % 512;
    assert ((fill / 512 + 1) * 512 + 128) % 512 == 128;
  }

  /** A non-SCO write leaves the controller in range exactly if the fill level is not negative or
      the threshold is off its target, and changes no other field.  A fill level that was read is
      never negative; one that was never set can be anything. */
  lemma ThrottledIsControlled(o: Out, wanted: BufferType, fill: int)
    requires Controlled(o) && o.config == CONFIG_OUT && !wanted.Unknown?
    ensures var p := Throttled(o, wanted, fill);
            && (Controlled(p) <==>
                  fill >= 0 || (!o.bufferType.Unknown? && o.threshold != if wanted.Long? then 4096 else 1024))
            && p == o.(bufferType := wanted, target := p.target, threshold := p.threshold)
            && (p.target == 4096 <==> wanted.Long?)
  {
    var r := Retarget(o, wanted);
    assert ThresholdOk(r.target, r.threshold);
    InRangeExactlyWhen(r.threshold, r.target, fill);
  }

  lemma InRangeExactlyWhen(threshold: int, target: int, fill: int)
    requires ThresholdOk(target, threshold)
    ensures ThresholdOk(target, Adjust(threshold, target, fill)) <==> fill >= 0 || threshold != target
  {
    if threshold == target {
      if fill >= 0 {
        if target - fill > 1024 { assert 0 <= fill / 512 <= 5; }
      } else {
        assert fill / 512 <= -1;
        assert (fill / 512 + 1) * 512 <= 0;
      }
    }
  }

  /** The threshold leaves its target only by a depletion reset, which needs long mode and
      lands strictly above the fill level, at most one period and a quarter above it. */
  lemma DepletionReset(target: int, fill: int)
    requires ThresholdOk(target, target) && 0 <= fill <= 4096
    ensures Adjust(target, target, fill) != target <==> target == 4096 && fill < 3072
    ensures var next := Adjust(target, target, fill);
            next != target ==> fill + 128 < next <= fill + 640 && next <= target && next % 512 == 128
  {
    assert fill == fill / 512 * 512 + fill % 512;
    if target == 4096 && fill < 3072 {
      assert fill / 512 <= 5;
    }
  }

  function Abs(x: int): nat { if x < 0 then -x else x }

  /** The threshold after each of a sequence of writes with the same target. */
  function AdjustAll(threshold: int, target: int, fills: seq<int>): int
    decreases |fills|
  {
    if fills == [] then threshold
    else AdjustAll(Adjust(threshold, target, fills[0]), target, fills[1..])
  }

  /** The number of writes that bring the threshold to its target. */
  function WritesToTarget(threshold: int, target: int): nat {
    (Abs(target - threshold) + 127) / 128
  }

  /** A write before the target is reached moves strictly closer, by a full step or to the
      target itself, and never past it, whatever the fill level. */
  lemma Approach(threshold: int, target: int, fill: int)
    requires threshold != target
    ensures var next := Adjust(threshold, target, fill);
            && (threshold < next <= target || target <= next < threshold)
            && (next == target || Abs(target - next) == Abs(target - threshold) - 128)
            && WritesToTarget(next, target) == WritesToTarget(threshold, target) - 1
  {
    var next := Adjust(threshold, target, fill);
    if next == target {
      assert 1 <= Abs(target - threshold) <= STEP;
      assert WritesToTarget(threshold, target) == 1;
      assert WritesToTarget(next, target) == 0;
    } else {
      assert Abs(target - next) + 127 == Abs(target - threshold) - 1;
    }
  }

  /** With a fixed target the threshold reaches it after exactly WritesToTarget writes and
      not before, whatever the fill levels; from any reachable threshold that is at most 27. */
  lemma {:induction false} ReachesTarget(threshold: int, target: int, fills: seq<int>)
    requires |fills| <= WritesToTarget(threshold, target)
    ensures AdjustAll(threshold, target, fills) == target <==> |fills| == WritesToTarget(threshold, target)
    ensures ThresholdOk(target, threshold) ==> WritesToTarget(threshold, target) <= 27
    decreases |fills|
  {
    assert WritesToTarget(threshold, target) == 0 <==> threshold == target;
    if fills != [] {
      Approach(threshold, target, fills[0]);
      ReachesTarget(Adjust(threshold, target, fills[0]), target, fills[1..]);
    }
  }
}
