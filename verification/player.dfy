/** The player: the play, stop and volume handlers over the three module-level
    references to the current left oscillator, right oscillator and master gain. */
module Player {
  import opened Automation
  import opened AudioNodes
  import SleepMode
  import ToneMode

  /** The mode chosen on the form, with its already parsed inputs. */
  datatype Mode = Sleep(totalMinutes: int) | Tone(state: ToneMode.ToneState)

  /** Master gain for a volume slider reading in percent. The gain is the
      slider's percentage as a fraction, so it lies in [0, 1] exactly when the
      slider lies in [0, 100]. */
  function GainOf(slider: int): (g: real)
    ensures g * 100.0 == slider as real
    ensures 0 <= slider <= 100 <==> 0.0 <= g <= 1.0
  {
    slider as real / 100.0
  }

  /** Frequency the left oscillator is created at. */
  function LeftStart(mode: Mode): real {
    match mode
    case Sleep(_) => SleepMode.Carrier
    case Tone(s) => ToneMode.Select(s).left
  }

  /** Frequency the right oscillator is created at. */
  function RightStart(mode: Mode): real {
    match mode
    case Sleep(_) => SleepMode.AlphaFreq
    case Tone(s) => ToneMode.Select(s).right
  }

  /** Events scheduled on the right oscillator, relative to the session start. */
  function RightSchedule(mode: Mode): seq<Event> {
    match mode
    case Sleep(minutes) => SleepMode.Events(SleepMode.TotalSeconds(minutes))
    case Tone(_) => []
  }

  /** Issues the sleep cycle on `osc`'s frequency with the audio clock at `now`:
      a fall to the delta band, a hold, a rise back to the alpha band. */
  method ScheduleSleepCycle(osc: Oscillator, totalTime: int, now: real)
    modifies osc
    ensures osc.automation == old(osc.automation) + Shift(SleepMode.Events(totalTime), now)
    ensures osc.frequency == old(osc.frequency) && osc.running == old(osc.running)
  {
    var carrier := SleepMode.Carrier;
    var transitionTime := SleepMode.TransitionTime;
    if totalTime >= 2 * transitionTime {
      osc.LinearRampTo(carrier + SleepMode.DeltaBeat, transitionTime as real, now);
      osc.SetValueAtTime(carrier + SleepMode.DeltaBeat, now + (totalTime - transitionTime) as real);
      osc.LinearRampTo(carrier + SleepMode.AlphaBeat, transitionTime as real, now + (totalTime - transitionTime) as real);
    } else {
      var halfTime := totalTime as real / 2.0;
      osc.LinearRampTo(carrier + SleepMode.DeltaBeat, halfTime, now);
      osc.SetValueAtTime(carrier + SleepMode.DeltaBeat, now + halfTime);
      osc.LinearRampTo(carrier + SleepMode.AlphaBeat, halfTime, now + halfTime);
    }
    ghost var evs := SleepMode.Events(totalTime);
    assert Shift(evs, now) == [ShiftEvent(evs[0], now), ShiftEvent(evs[1], now), ShiftEvent(evs[2], now)];
  }

  /** What a session plays, once started at clock time `now`: the left channel
      stays at its initial frequency; in sleep mode the right channel follows the
      sleep schedule from `now` on and the beat stays between the delta and the
      alpha band; in tone mode the beat is the selected one at every instant. */
  lemma PlayedChannels(mode: Mode, now: real, t: real)
    ensures ValueAt(LeftStart(mode), [], t) == LeftStart(mode)
    ensures var right := ValueAt(RightStart(mode), Shift(RightSchedule(mode), now), t);
      match mode
      case Sleep(minutes) =>
        && right == SleepMode.RightFreqAt(SleepMode.TotalSeconds(minutes), t - now)
        && SleepMode.DeltaBeat <= right - LeftStart(mode) <= SleepMode.AlphaBeat
      case Tone(s) =>
        right - LeftStart(mode) == (if s.Preset432? then ToneMode.HealingBeat else s.hz)
  {
    ValueShifted(RightStart(mode), RightSchedule(mode), now, t);
    match mode
    case Sleep(minutes) =>
      SleepMode.BeatWithinBand(SleepMode.TotalSeconds(minutes), t - now);
    case Tone(_) =>
  }

  /** The module-level state of the player. */
  class Session {
    var leftOsc: Oscillator?
    var rightOsc: Oscillator?
    var masterGain: Gain?

    /** The oscillators come and go as a pair of two distinct nodes, and a pair
        only exists once a master gain does. */
    predicate Valid()
      reads this
    {
      && (leftOsc == null <==> rightOsc == null)
      && (leftOsc != null ==> leftOsc != rightOsc && masterGain != null)
    }

    /** Nothing is playing when the page loads. */
    constructor ()
      ensures Valid()
      ensures leftOsc == null && rightOsc == null && masterGain == null
    {
      leftOsc, rightOsc, masterGain := null, null, null;
    }

    /** Play: stops the pair that is sounding, if any, creates a new master gain
        at the slider's level and a new started pair for `mode`, and schedules
        the sleep cycle on the right channel in sleep mode. `now` is the audio
        clock reading when the handler runs. */
    method Play(mode: Mode, slider: int, now: real)
      requires Valid()
      modifies this, leftOsc, rightOsc
      ensures Valid()
      ensures old(leftOsc) != null ==> !old(leftOsc).running && !old(rightOsc).running
      ensures leftOsc != null && rightOsc != null && masterGain != null
      ensures fresh(leftOsc) && fresh(rightOsc) && fresh(masterGain)
      ensures masterGain.value == GainOf(slider) && masterGain.automation == []
      ensures leftOsc.running && leftOsc.frequency == LeftStart(mode) && leftOsc.automation == []
      ensures rightOsc.running && rightOsc.frequency == RightStart(mode)
      ensures rightOsc.automation == Shift(RightSchedule(mode), now)
      ensures forall t :: leftOsc.FrequencyAt(t) == LeftStart(mode)
      ensures mode.Sleep? ==> forall t ::
        rightOsc.FrequencyAt(t) == SleepMode.RightFreqAt(SleepMode.TotalSeconds(mode.totalMinutes), t - now)
      ensures mode.Tone? ==> forall t ::
        rightOsc.FrequencyAt(t) - leftOsc.FrequencyAt(t) ==
          (if mode.state.Preset432? then ToneMode.HealingBeat else mode.state.hz)
    {
      var volume := GainOf(slider);
      if leftOsc != null {
        leftOsc.Stop();
        rightOsc.Stop();
      }
      masterGain := new Gain(volume);
      match mode
      case Sleep(minutes) =>
        var totalTime := SleepMode.TotalSeconds(minutes);
        var left := new Oscillator(SleepMode.Carrier);
        var right := new Oscillator(SleepMode.Carrier + SleepMode.AlphaBeat);
        left.Start();
        right.Start();
        ScheduleSleepCycle(right, totalTime, now);
        leftOsc, rightOsc := left, right;
        forall t
          ensures rightOsc.FrequencyAt(t) == SleepMode.RightFreqAt(totalTime, t - now)
        {
          assert right.frequency == RightStart(mode) && right.automation == Shift(RightSchedule(mode), now);
          PlayedChannels(mode, now, t);
        }
      case Tone(state) =>
        var channels := ToneMode.Select(state);
        var left := new Oscillator(channels.left);
        var right := new Oscillator(channels.right);
        left.Start();
        right.Start();
        leftOsc, rightOsc := left, right;
        forall t
          ensures rightOsc.FrequencyAt(t) - leftOsc.FrequencyAt(t) ==
            (if state.Preset432? then ToneMode.HealingBeat else state.hz)
        {
          PlayedChannels(mode, now, t);
        }
    }

    /** Stop: a no-op when nothing is playing; otherwise the master gain is
        ramped to silence over two seconds and the pair is stopped and released. */
    method Stop(now: real)
      requires Valid()
      modifies this, leftOsc, rightOsc, masterGain
      ensures Valid()
      ensures leftOsc == null && rightOsc == null && masterGain == old(masterGain)
      ensures old(leftOsc) == null ==> unchanged(this) && (masterGain != null ==> unchanged(masterGain))
      ensures old(leftOsc) != null ==>
        && !old(leftOsc).running && !old(rightOsc).running
        && masterGain.value == old(masterGain.value)
        && masterGain.automation == old(masterGain.automation) + [LinearRampTo(0.0, 2.0, now)]
        && (forall t :: t >= now + 2.0 ==> masterGain.LevelAt(t) == 0.0)
    {
      if leftOsc != null {
        masterGain.RampTo(0.0, 2.0, now);
        forall t | t >= now + 2.0
          ensures masterGain.LevelAt(t) == 0.0
        {
          RampReaches(masterGain.value, old(masterGain.automation), 0.0, 2.0, now, t);
        }
        leftOsc.Stop();
        rightOsc.Stop();
        leftOsc := null;
        rightOsc := null;
      }
    }

    /** Live volume edit with the audio clock at `now`: the master gain is at
        the slider's level from `now` on, overriding any fade still scheduled,
        and nothing happens when no master gain exists yet. */
    method SetVolume(slider: int, now: real)
      requires Valid()
      modifies masterGain
      ensures Valid()
      ensures old(masterGain) == null ==> unchanged(this)
      ensures masterGain != null ==>
        && masterGain.automation == old(masterGain.automation) + [SetValueAtTime(GainOf(slider), now)]
        && (forall t :: t >= now ==> masterGain.LevelAt(t) == GainOf(slider))
        && (forall t :: t < now ==> masterGain.LevelAt(t) == old(masterGain.LevelAt(t)))
      ensures leftOsc != null ==> unchanged(leftOsc) && unchanged(rightOsc)
    {
      var volume := GainOf(slider);
      if masterGain != null {
        masterGain.SetValue(volume, now);
      }
    }
  }
}
