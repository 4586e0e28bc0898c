/**
 * The jump detector: a peak-amplitude threshold classifier over blocks of
 * 16-bit audio samples, with a cooldown between reported jumps and an
 * accumulated "time spent jumping" made of the short gaps between them.
 */
module JumpDetection {

  /**
   * The detector's threshold. It is an integer except when a saved sensitivity
   * could not be read by `parseInt`, which yields NaN; no amplitude is above NaN.
   */
  datatype Threshold = Finite(value: int) | NaN

  predicate Above(amplitude: int, t: Threshold) {
    t.Finite? && amplitude > t.value
  }

  function Abs(x: int): nat {
    if x < 0 then -x else x
  }

  /**
   * The largest absolute sample among the first `count` positions of the block,
   * or 0. A position past the end of the buffer reads `undefined`, whose absolute
   * value (NaN) is never greater than the running maximum, so it adds nothing.
   */
  function Peak(buffer: seq<int>, count: int): nat
    decreases count
  {
    if count <= 0 then 0
    else
      var m := Peak(buffer, count - 1);
      if count - 1 < |buffer| && Abs(buffer[count - 1]) > m then Abs(buffer[count - 1]) else m
  }

  /** Peak is the maximum: no scanned sample exceeds it, and it is 0 or one of the scanned samples. */
  lemma {:induction false} PeakIsMaximum(buffer: seq<int>, count: int)
    ensures forall i :: 0 <= i < count && i < |buffer| ==> Abs(buffer[i]) <= Peak(buffer, count)
    ensures Peak(buffer, count) == 0 ||
            exists i :: 0 <= i < count && i < |buffer| && Peak(buffer, count) == Abs(buffer[i])
  {
    if count > 0 {
      PeakIsMaximum(buffer, count - 1);
    }
  }

  /**
   * A block's peak is above the threshold exactly when one of its scanned samples
   * is, or the threshold is below the starting maximum 0.
   */
  lemma PeakAboveIff(buffer: seq<int>, count: int, t: Threshold)
    ensures Above(Peak(buffer, count), t) <==>
            Above(0, t) || exists i :: 0 <= i < count && i < |buffer| && Above(Abs(buffer[i]), t)
  {
    PeakIsMaximum(buffer, count);
  }

  /** The detector's fields, as one value. */
  datatype Detector = Detector(
    threshold: Threshold,
    cooldownMs: int,
    maxGapMs: int,
    lastJumpTimeMs: int,  // 0 means "no jump yet"
    jumpTimeMs: int)

  /**
   * What `processBuffer` does to a detector: the new detector and whether a jump
   * was reported. The cooldown test applies to the sentinel 0 as to any other
   * previous jump time.
   */
  function Process(d: Detector, buffer: seq<int>, readCount: int, nowMs: int): (Detector, bool)
  {
    if readCount <= 0 then (d, false)
    else if Above(Peak(buffer, readCount), d.threshold) && nowMs - d.lastJumpTimeMs > d.cooldownMs then
      var gap := nowMs - d.lastJumpTimeMs;
      var gained := if d.lastJumpTimeMs > 0 && gap <= d.maxGapMs then gap else 0;
      (d.(lastJumpTimeMs := nowMs, jumpTimeMs := d.jumpTimeMs + gained), true)
    else (d, false)
  }

  /** What `reset` does to a detector. */
  function AfterReset(d: Detector): (r: Detector)
    ensures r.lastJumpTimeMs == 0 && r.jumpTimeMs == 0
    ensures r.threshold == d.threshold && r.cooldownMs == d.cooldownMs && r.maxGapMs == d.maxGapMs
  {
    d.(lastJumpTimeMs := 0, jumpTimeMs := 0)
  }

  /**
   * A jump is reported iff the block is not empty, some scanned sample is
   * strictly above the threshold in absolute value (or the threshold is
   * negative, so the starting maximum 0 already beats it), and strictly more than
   * the cooldown has passed since the previous jump (or since time 0).
   */
  lemma ReportsJumpIff(d: Detector, buffer: seq<int>, readCount: int, nowMs: int)
    ensures Process(d, buffer, readCount, nowMs).1 <==>
            readCount > 0 &&
            (Above(0, d.threshold) ||
             exists i :: 0 <= i < readCount && i < |buffer| && Above(Abs(buffer[i]), d.threshold)) &&
            nowMs - d.lastJumpTimeMs > d.cooldownMs
  {
    PeakAboveIff(buffer, readCount, d.threshold);
  }

  /** An empty or rejected block changes nothing. */
  lemma RejectedBlockChangesNothing(d: Detector, buffer: seq<int>, readCount: int, nowMs: int)
    ensures !Process(d, buffer, readCount, nowMs).1 ==> Process(d, buffer, readCount, nowMs).0 == d
    ensures readCount <= 0 ==> Process(d, buffer, readCount, nowMs) == (d, false)
  {
  }

  /**
   * An accepted block moves the last jump time to `nowMs` and adds the gap to the
   * jump time exactly when there was a previous jump and the gap is at most
   * `maxGapMs`; the configuration is untouched.
   */
  lemma AcceptedBlockAccounting(d: Detector, buffer: seq<int>, readCount: int, nowMs: int)
    requires Process(d, buffer, readCount, nowMs).1
    ensures var d' := Process(d, buffer, readCount, nowMs).0;
      d'.lastJumpTimeMs == nowMs &&
      d'.jumpTimeMs - d.jumpTimeMs ==
        (if d.lastJumpTimeMs > 0 && nowMs - d.lastJumpTimeMs <= d.maxGapMs then nowMs - d.lastJumpTimeMs else 0) &&
      d'.threshold == d.threshold && d'.cooldownMs == d.cooldownMs && d'.maxGapMs == d.maxGapMs
  {
  }

  /** The "no jump yet" sentinel is not special-cased: a first block at or before `cooldownMs` is rejected. */
  lemma FirstJumpWithinCooldownRejected(d: Detector, buffer: seq<int>, readCount: int, nowMs: int)
    requires d.lastJumpTimeMs == 0 && nowMs <= d.cooldownMs
    ensures !Process(d, buffer, readCount, nowMs).1
  {
  }

  /** With a non-negative cooldown and clock, jump time never decreases and never exceeds the last jump time. */
  lemma JumpTimeBounded(d: Detector, buffer: seq<int>, readCount: int, nowMs: int)
    requires d.cooldownMs >= 0 && nowMs >= 0
    requires 0 <= d.jumpTimeMs <= d.lastJumpTimeMs
    ensures var d' := Process(d, buffer, readCount, nowMs).0;
      d.jumpTimeMs <= d'.jumpTimeMs <= d'.lastJumpTimeMs
  {
  }

  /**
   * After `reset`, a block with a sample above the threshold arriving after the
   * cooldown is accepted as a first jump and adds no jump time.
   */
  lemma ResetThenJumpAccepted(d: Detector, buffer: seq<int>, readCount: int, nowMs: int, i: int)
    requires 0 <= i < readCount && i < |buffer| && Above(Abs(buffer[i]), d.threshold)
    requires nowMs > d.cooldownMs
    ensures Process(AfterReset(d), buffer, readCount, nowMs) ==
            (AfterReset(d).(lastJumpTimeMs := nowMs), true)
  {
    PeakAboveIff(buffer, readCount, d.threshold);
  }

  /**
   * The analyzer object. `threshold` is public and may be set at any time;
   * `cooldownMs` and `maxGapMs` are never reassigned after construction.
   */
  class JumpAnalyzer {
    var threshold: Threshold
    const cooldownMs: int
    const maxGapMs: int
    var lastJumpTimeMs: int
    var jumpTimeMs: int

    function State(): Detector
      reads this
    {
      Detector(threshold, cooldownMs, maxGapMs, lastJumpTimeMs, jumpTimeMs)
    }

    constructor (threshold: Threshold := Finite(8000), cooldownMs: int := 200, maxGapMs: int := 2000)
      ensures State() == Detector(threshold, cooldownMs, maxGapMs, 0, 0)
    {
      this.threshold := threshold;
      this.cooldownMs := cooldownMs;
      this.maxGapMs := maxGapMs;
      lastJumpTimeMs := 0;
      jumpTimeMs := 0;
    }

    /** Scan one block of `readCount` samples taken at `nowMs`; report whether it holds a jump. */
    method ProcessBuffer(buffer: seq<int>, readCount: int, nowMs: int) returns (jumped: bool)
      modifies this
      ensures (State(), jumped) == Process(old(State()), buffer, readCount, nowMs)
    {
      if readCount <= 0 {
        return false;
      }
      var maxAmplitude := ScanPeak(buffer, readCount);
      if Above(maxAmplitude, threshold) && nowMs - lastJumpTimeMs > cooldownMs {
        if lastJumpTimeMs > 0 {
          var gap := nowMs - lastJumpTimeMs;
          if gap <= maxGapMs {
            jumpTimeMs := jumpTimeMs + gap;
          }
        }
        lastJumpTimeMs := nowMs;
        return true;
      }
      return false;
    }

    method Reset()
      modifies this
      ensures State() == AfterReset(old(State()))
    {
      lastJumpTimeMs := 0;
      jumpTimeMs := 0;
    }

    /** Assigning the public `threshold` field; the next block is judged against it. */
    method SetThreshold(t: Threshold)
      modifies this
      ensures State() == old(State()).(threshold := t)
    {
      threshold := t;
    }
  }

  /** The scanning loop of `processBuffer`: the largest absolute value among the first `readCount` samples. */
  method ScanPeak(buffer: seq<int>, readCount: int) returns (maxAmplitude: nat)
    ensures maxAmplitude == Peak(buffer, readCount)
    ensures forall i :: 0 <= i < readCount && i < |buffer| ==> Abs(buffer[i]) <= maxAmplitude
    ensures maxAmplitude == 0 ||
            exists i :: 0 <= i < readCount && i < |buffer| && maxAmplitude == Abs(buffer[i])
  {
    maxAmplitude := 0;
    var i := 0;
    while i < readCount
      invariant 0 <= i <= (if readCount > 0 then readCount else 0)
      invariant maxAmplitude == Peak(buffer, i)
    {
      // Past the end of the buffer the sample is `undefined`; `Math.abs` gives NaN, which never wins.
      if i < |buffer| {
        var sample := Abs(buffer[i]);
        if sample > maxAmplitude {
          maxAmplitude := sample;
        }
      }
      i := i + 1;
    }
    PeakIsMaximum(buffer, readCount);
  }

  // Worked scenarios, with the detector configured as threshold 5000, cooldown 200 ms, max gap 2000 ms.

  /** A 64-sample block holding `amplitude` at position 0 and silence after it. */
  function Block(amplitude: int): (b: seq<int>)
    ensures |b| == 64
  {
    [amplitude] + seq(63, _ => 0)
  }

  lemma BlockAbove(amplitude: int, t: Threshold)
    ensures Above(Peak(Block(amplitude), 64), t) <==> Above(Abs(amplitude), t) || Above(0, t)
  {
    var b := Block(amplitude);
    PeakAboveIff(b, 64, t);
    assert b[0] == amplitude;
    assert forall i :: 0 < i < 64 ==> b[i] == 0;
  }

  function Configured(): Detector {
    Detector(Finite(5000), 200, 2000, 0, 0)
  }

  /** A jump at 1000, a block 100 ms later inside the cooldown, and one 201 ms later past it. */
  lemma CooldownScenario()
    ensures var r1 := Process(Configured(), Block(6000), 64, 1000);
            var r2 := Process(r1.0, Block(6000), 64, 1100);
            var r3 := Process(r2.0, Block(6000), 64, 1201);
            r1.1 && !r2.1 && r3.1 && r3.0.jumpTimeMs == 201
  {
    BlockAbove(6000, Finite(5000));
  }

  /** A block whose loudest sample is 3000 is not a jump; an empty block is not either. */
  lemma QuietAndEmptyBlocks()
    ensures !Process(Configured(), Block(3000), 64, 1000).1
    ensures !Process(Configured(), Block(6000), 0, 1000).1
  {
    BlockAbove(3000, Finite(5000));
  }

  /** Raising the threshold to 10000 rejects the next block; lowering it back accepts the one after. */
  lemma ThresholdChangeScenario()
    ensures var r1 := Process(Configured(), Block(6000), 64, 1000);
            var r2 := Process(r1.0.(threshold := Finite(10000)), Block(6000), 64, 2000);
            var r3 := Process(r2.0.(threshold := Finite(5000)), Block(6000), 64, 3000);
            r1.1 && !r2.1 && r3.1
  {
    BlockAbove(6000, Finite(5000));
    BlockAbove(6000, Finite(10000));
  }

  /** After a reset, a jump 50 ms after the previous one is accepted. */
  lemma ResetScenario()
    ensures var r1 := Process(Configured(), Block(6000), 64, 1000);
            var r2 := Process(AfterReset(r1.0), Block(6000), 64, 1050);
            r1.1 && r2.1 && r2.0.jumpTimeMs == 0
  {
    BlockAbove(6000, Finite(5000));
  }

  /** Gaps of 500 ms count; a gap of 5000 ms (beyond 2000) does not. */
  lemma GapScenarios()
    ensures var r1 := Process(Configured(), Block(6000), 64, 1000);
            var r2 := Process(r1.0, Block(6000), 64, 1500);
            var r3 := Process(r2.0, Block(6000), 64, 2000);
            r2.0.jumpTimeMs == 500 && r3.0.jumpTimeMs == 1000
    ensures var r1 := Process(Configured(), Block(6000), 64, 1000);
            var r2 := Process(r1.0, Block(6000), 64, 1500);
            var r3 := Process(r2.0, Block(6000), 64, 6500);
            var r4 := Process(r3.0, Block(6000), 64, 7000);
            r4.0.jumpTimeMs == 1000
  {
    BlockAbove(6000, Finite(5000));
  }
}
