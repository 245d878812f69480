/** Stand-ins for the audio engine's nodes. Only what the player does with them
    is kept: the value a node is created with, the calls made on its timeline,
    and whether an oscillator is sounding. Panners, connections and the audio
    graph are not part of this model. */
module AudioNodes {
  import opened Automation

  /** An oscillator: its frequency at creation, the events scheduled on its
      frequency, and whether it has been started and not stopped since. */
  class Oscillator {
    var frequency: real
    var automation: seq<Event>
    var running: bool

    constructor (frequency: real)
      ensures this.frequency == frequency && automation == [] && !running
    {
      this.frequency := frequency;
      automation := [];
      running := false;
    }

    /** The oscillator's frequency at clock time `t`. */
    function FrequencyAt(t: real): real
      reads this
    {
      ValueAt(frequency, automation, t)
    }

    method Start()
      modifies this
      ensures running
      ensures frequency == old(frequency) && automation == old(automation)
    {
      running := true;
    }

    method Stop()
      modifies this
      ensures !running
      ensures frequency == old(frequency) && automation == old(automation)
    {
      running := false;
    }

    method LinearRampTo(value: real, rampTime: real, startTime: real)
      modifies this
      ensures automation == old(automation) + [Event.LinearRampTo(value, rampTime, startTime)]
      ensures frequency == old(frequency) && running == old(running)
    {
      automation := automation + [Event.LinearRampTo(value, rampTime, startTime)];
    }

    method SetValueAtTime(value: real, time: real)
      modifies this
      ensures automation == old(automation) + [Event.SetValueAtTime(value, time)]
      ensures frequency == old(frequency) && running == old(running)
    {
      automation := automation + [Event.SetValueAtTime(value, time)];
    }
  }

  /** A gain node: its level at creation and the events scheduled on it. */
  class Gain {
    var value: real
    var automation: seq<Event>

    constructor (value: real)
      ensures this.value == value && automation == []
    {
      this.value := value;
      automation := [];
    }

    /** The gain at clock time `t`. */
    function LevelAt(t: real): real
      reads this
    {
      ValueAt(value, automation, t)
    }

    /** A linear ramp of the gain to `target` over `rampTime` seconds from `startTime`. */
    method RampTo(target: real, rampTime: real, startTime: real)
      modifies this
      ensures automation == old(automation) + [Event.LinearRampTo(target, rampTime, startTime)]
      ensures value == old(value)
    {
      automation := automation + [Event.LinearRampTo(target, rampTime, startTime)];
    }

    /** A direct write of the gain's level with the audio clock at `now`: what
        was scheduled from `now` on is overridden and the level is `v` from then
        on, while the level before `now` is kept. */
    method SetValue(v: real, now: real)
      modifies this
      ensures value == old(value)
      ensures automation == old(automation) + [Event.SetValueAtTime(v, now)]
      ensures forall t :: t >= now ==> LevelAt(t) == v
      ensures forall t :: t < now ==> LevelAt(t) == old(LevelAt(t))
    {
      automation := automation + [Event.SetValueAtTime(v, now)];
      forall t
        ensures LevelAt(t) == if t < now then old(LevelAt(t)) else v
      {
        SetValueOverrides(value, old(automation), v, now, t);
      }
    }
  }
}
