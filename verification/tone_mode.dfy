/** Tone mode: a constant pair of frequencies chosen from the selected state. */
module ToneMode {

  /** The selected state: the 432 Hz healing preset, a custom beat typed in by the
      user, or a preset whose value is the beat itself. Parsing the form's text
      into these numbers happens before this model. */
  datatype ToneState = Preset432 | Custom(hz: real) | Preset(hz: real)

  const DefaultCarrier: real := 200.0
  const HealingCarrier: real := 432.0
  /** Delta beat used by the 432 Hz preset. */
  const HealingBeat: real := 2.0

  /** Left and right channel frequencies, in Hz. */
  datatype Channels = Channels(left: real, right: real)

  /** The channels a state is played on. Only the 432 preset moves the carrier;
      every state is heard as a beat, right minus left, equal to the beat it
      selects; and the right channel is above the left exactly when that beat
      is positive. */
  function Select(state: ToneState): (c: Channels)
    ensures state.Preset432? ==> c.left == HealingCarrier && c.right - c.left == HealingBeat
    ensures !state.Preset432? ==> c.left == DefaultCarrier && c.right - c.left == state.hz
    ensures c.right > c.left <==> (state.Preset432? || state.hz > 0.0)
  {
    var carrier := if state.Preset432? then HealingCarrier else DefaultCarrier;
    var beatFrequency :=
      match state
      case Preset432 => HealingBeat
      case Custom(hz) => hz
      case Preset(hz) => hz;
    Channels(carrier, carrier + beatFrequency)
  }
}
