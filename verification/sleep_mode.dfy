/** Sleep mode: the left channel plays the carrier unchanged, while the right
    channel starts in the alpha band, is ramped down to the delta band, held
    there, and ramped back up so the session ends in the alpha band again.

    Times in this module are seconds since the session started (the audio
    clock reading taken when the schedule is issued is time 0).
 */
module SleepMode {
  import opened Automation

  const Carrier: real := 200.0
  /** Alpha band beat, 10 Hz. */
  const AlphaBeat: real := 10.0
  /** Delta band beat, 2 Hz. */
  const DeltaBeat: real := 2.0
  /** Length of each transition in a long session: 30 minutes. */
  const TransitionTime: int := 1800

  /** Right-channel frequency in the alpha band, 210 Hz. */
  const AlphaFreq: real := Carrier + AlphaBeat
  /** Right-channel frequency in the delta band, 202 Hz. */
  const DeltaFreq: real := Carrier + DeltaBeat

  /** The session length the form gives in whole minutes, in seconds. */
  function TotalSeconds(minutes: int): int {
    minutes * 60
  }

  /** The three calls made on the right channel's frequency, in the order they
      are issued: ramp down to the delta band from the session start, hold the
      delta band, ramp back up to the alpha band ending at `totalTime`. */
  function Events(totalTime: int): (evs: seq<Event>)
    ensures |evs| == 3
    ensures evs[0].LinearRampTo? && Start(evs[0]) == 0.0 && Final(evs[0]) == DeltaFreq
    ensures evs[1].SetValueAtTime? && Final(evs[1]) == DeltaFreq && Start(evs[1]) == Start(evs[2])
    ensures evs[2].LinearRampTo? && Final(evs[2]) == AlphaFreq && End(evs[2]) == totalTime as real
    ensures evs[0].rampTime == evs[2].rampTime
    ensures totalTime >= 2 * TransitionTime ==> evs[0].rampTime == TransitionTime as real
    ensures totalTime < 2 * TransitionTime ==> 2.0 * evs[0].rampTime == totalTime as real
    ensures totalTime >= 0 ==> InOrder(evs)
  {
    if totalTime >= 2 * TransitionTime then
      [ LinearRampTo(DeltaFreq, TransitionTime as real, 0.0),
        SetValueAtTime(DeltaFreq, (totalTime - TransitionTime) as real),
        LinearRampTo(AlphaFreq, TransitionTime as real, (totalTime - TransitionTime) as real) ]
    else
      var halfTime := totalTime as real / 2.0;
      [ LinearRampTo(DeltaFreq, halfTime, 0.0),
        SetValueAtTime(DeltaFreq, halfTime),
        LinearRampTo(AlphaFreq, halfTime, halfTime) ]
  }

  /** Left-channel frequency at time `t` of a sleep session: the oscillator is
      created at the carrier and never scheduled. */
  function LeftFreqAt(t: real): real {
    ValueAt(Carrier, [], t)
  }

  /** Right-channel frequency at time `t` of a session of `totalTime` seconds:
      the oscillator is created in the alpha band and given `Events(totalTime)`. */
  function RightFreqAt(totalTime: int, t: real): real {
    ValueAt(AlphaFreq, Events(totalTime), t)
  }

  /** Length of each ramp: 30 minutes, or half the session if that is shorter. */
  function RampLength(totalTime: int): real {
    var half := totalTime as real / 2.0;
    if half < TransitionTime as real then half else TransitionTime as real
  }

  /** Reference definition of the right channel's envelope, phase by phase:
      alpha before the start and after the end, a fall over the first ramp, a
      hold in the delta band, a rise over the last ramp. */
  function Envelope(totalTime: int, t: real): real
    requires totalTime > 0
  {
    var ramp := RampLength(totalTime);
    var total := totalTime as real;
    if t <= 0.0 || t >= total then AlphaFreq
    else if t < ramp then AlphaFreq - (AlphaBeat - DeltaBeat) * (t / ramp)
    else if t <= total - ramp then DeltaFreq
    else DeltaFreq + (AlphaBeat - DeltaBeat) * ((t - (total - ramp)) / ramp)
  }

  /** The schedule as issued, interpreted on the audio timeline, is the envelope. */
  lemma RightFreqIsEnvelope(totalTime: int, t: real)
    requires totalTime > 0
    ensures RightFreqAt(totalTime, t) == Envelope(totalTime, t)
  {
    var evs := Events(totalTime);
    var ramp := RampLength(totalTime);
    var rise := totalTime as real - ramp;
    assert evs[0].rampTime == ramp && evs[2].rampTime == ramp && Start(evs[2]) == rise;
    assert ramp <= rise;
    assert evs[..2] == [evs[0], evs[1]] && evs[..2][..1] == [evs[0]] && [evs[0]][..0] == [];
    // the first ramp, alone
    assert ValueAt(AlphaFreq, [evs[0]], t) ==
      if t < 0.0 then AlphaFreq
      else if t >= ramp then DeltaFreq
      else AlphaFreq + (DeltaFreq - AlphaFreq) * (t / ramp);
    // the hold, which the rise starts from
    assert ValueAt(AlphaFreq, evs[..2], rise) == DeltaFreq;
    if t < rise {
      assert ValueAt(AlphaFreq, evs[..2], t) == ValueAt(AlphaFreq, [evs[0]], t);
    }
  }

  /** A quotient by a positive number keeps the order of the dividends. */
  lemma DivMonotone(a: real, b: real, c: real)
    requires c > 0.0 && a < b
    ensures a / c < b / c
  {
  }

  /** The shape of a sleep session, phase by phase, on closed intervals: a
      linear fall from alpha over the first ramp, the delta band held between
      the ramps, and a linear rise reaching alpha exactly at the end. */
  lemma SleepShape(totalTime: int, t: real)
    requires totalTime > 0
    ensures var ramp := RampLength(totalTime);
      && (0.0 <= t <= ramp ==>
            RightFreqAt(totalTime, t) == AlphaFreq - (AlphaBeat - DeltaBeat) * (t / ramp))
      && (ramp <= t <= totalTime as real - ramp ==>
            RightFreqAt(totalTime, t) == DeltaFreq)
      && (totalTime as real - ramp <= t <= totalTime as real ==>
            RightFreqAt(totalTime, t) ==
              DeltaFreq + (AlphaBeat - DeltaBeat) * ((t - (totalTime as real - ramp)) / ramp))
  {
    var ramp := RampLength(totalTime);
    assert ramp / ramp == 1.0;
    RightFreqIsEnvelope(totalTime, t);
  }

  /** A session of at least an hour: 210 Hz falls to 202 Hz over the first 30
      minutes, holds until 30 minutes before the end, then rises back to exactly
      210 Hz at the end. */
  lemma LongSession(totalTime: int, t: real)
    requires totalTime >= 2 * TransitionTime
    ensures 0.0 <= t <= 1800.0 ==> RightFreqAt(totalTime, t) == 210.0 - 8.0 * (t / 1800.0)
    ensures 1800.0 <= t <= totalTime as real - 1800.0 ==> RightFreqAt(totalTime, t) == 202.0
    ensures totalTime as real - 1800.0 <= t <= totalTime as real ==>
      RightFreqAt(totalTime, t) == 202.0 + 8.0 * ((t - (totalTime as real - 1800.0)) / 1800.0)
    ensures RightFreqAt(totalTime, totalTime as real) == 210.0
  {
    SleepShape(totalTime, t);
    SleepShape(totalTime, totalTime as real);
  }

  /** A session shorter than an hour: 210 Hz falls to 202 Hz over the first half
      and rises back over the second; there is no hold, and the session is at
      202 Hz exactly at its midpoint. */
  lemma ShortSession(totalTime: int, t: real)
    requires 0 < totalTime < 2 * TransitionTime
    ensures var half := totalTime as real / 2.0;
      && (0.0 <= t <= half ==> RightFreqAt(totalTime, t) == 210.0 - 8.0 * (t / half))
      && (half <= t <= totalTime as real ==> RightFreqAt(totalTime, t) == 202.0 + 8.0 * ((t - half) / half))
      && RightFreqAt(totalTime, half) == 202.0
  {
    var half := totalTime as real / 2.0;
    SleepShape(totalTime, t);
    SleepShape(totalTime, half);
  }

  /** Whatever the session length, the right channel starts in the alpha band and
      is back in it at the end of the session and after it. */
  lemma StartsAndEndsInAlpha(totalTime: int, t: real)
    requires totalTime >= 0
    requires t <= 0.0 || t >= totalTime as real
    ensures RightFreqAt(totalTime, t) == AlphaFreq
  {
    if totalTime > 0 {
      RightFreqIsEnvelope(totalTime, t);
    } else {
      var evs := Events(totalTime);
      assert evs[..2] == [evs[0], evs[1]] && evs[..2][..1] == [evs[0]] && [evs[0]][..0] == [];
      if t < 0.0 {
        assert ValueAt(AlphaFreq, [evs[0]], t) == AlphaFreq;
        assert ValueAt(AlphaFreq, evs[..2], t) == AlphaFreq;
      }
    }
  }

  /** For every session length and every instant, the left channel is at the
      carrier and the beat (right minus left) lies between the delta and the
      alpha band. */
  lemma BeatWithinBand(totalTime: int, t: real)
    ensures LeftFreqAt(t) == Carrier
    ensures DeltaBeat <= RightFreqAt(totalTime, t) - LeftFreqAt(t) <= AlphaBeat
  {
    var evs := Events(totalTime);
    assert forall i :: 0 <= i < |evs| ==> DeltaFreq <= Final(evs[i]) <= AlphaFreq;
    ValueWithin(AlphaFreq, evs, t, DeltaFreq, AlphaFreq);
  }

  /** Over the first ramp the right channel falls strictly. */
  lemma FallIsStrict(totalTime: int, t1: real, t2: real)
    requires totalTime > 0
    requires 0.0 <= t1 < t2 <= RampLength(totalTime)
    ensures RightFreqAt(totalTime, t1) > RightFreqAt(totalTime, t2)
  {
    var ramp := RampLength(totalTime);
    SleepShape(totalTime, t1);
    SleepShape(totalTime, t2);
    DivMonotone(t1, t2, ramp);
    assert (AlphaBeat - DeltaBeat) * (t1 / ramp) < (AlphaBeat - DeltaBeat) * (t2 / ramp);
  }

  /** Over the last ramp the right channel rises strictly. */
  lemma RiseIsStrict(totalTime: int, t1: real, t2: real)
    requires totalTime > 0
    requires totalTime as real - RampLength(totalTime) <= t1 < t2 <= totalTime as real
    ensures RightFreqAt(totalTime, t1) < RightFreqAt(totalTime, t2)
  {
    var ramp := RampLength(totalTime);
    var rise := totalTime as real - ramp;
    SleepShape(totalTime, t1);
    SleepShape(totalTime, t2);
    DivMonotone(t1 - rise, t2 - rise, ramp);
    assert (AlphaBeat - DeltaBeat) * ((t1 - rise) / ramp) < (AlphaBeat - DeltaBeat) * ((t2 - rise) / ramp);
  }
}
