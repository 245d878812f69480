/** The timeline of an audio parameter (an oscillator's frequency, a gain).

    The audio engine keeps, for each parameter, a list of scheduled changes.
    Its implementation is not part of this model; this module states the
    semantics the rest of the model ASSUMES for the two calls the player makes:

    - `SetValueAtTime(v, s)`: from time `s` on, the parameter holds `v`;
    - `LinearRampTo(v, d, s)`: from time `s` the parameter moves linearly from
      the value it holds at `s` to `v`, reaching `v` at `s + d`, and holds `v`
      afterwards.

    A later event overrides an earlier one from its own start time on. A ramp of
    length zero (or less) is an instantaneous step, so no division by zero can
    arise. Times are seconds on the audio clock.
 */
module Automation {

  datatype Event =
    | LinearRampTo(target: real, rampTime: real, startTime: real)
    | SetValueAtTime(value: real, time: real)

  /** The time from which the event governs the parameter. */
  function Start(e: Event): real {
    match e
    case LinearRampTo(_, _, s) => s
    case SetValueAtTime(_, s) => s
  }

  /** The time at which the event has reached its final value. */
  function End(e: Event): real {
    match e
    case LinearRampTo(_, d, s) => s + d
    case SetValueAtTime(_, s) => s
  }

  /** The value the parameter holds once the event is complete. */
  function Final(e: Event): real {
    match e
    case LinearRampTo(v, _, _) => v
    case SetValueAtTime(v, _) => v
  }

  /** Each event is complete no later than the next one starts: the order in which
      the events were issued is also their order in time, and no two overlap. */
  predicate InOrder(evs: seq<Event>) {
    forall i :: 0 <= i < |evs| - 1 ==> Start(evs[i]) <= End(evs[i]) <= Start(evs[i + 1])
  }

  /** The event moved `d` seconds later on the clock. */
  function ShiftEvent(e: Event, d: real): (r: Event)
    ensures Start(r) == Start(e) + d && End(r) == End(e) + d && Final(r) == Final(e)
    ensures r.LinearRampTo? == e.LinearRampTo?
  {
    match e
    case LinearRampTo(v, r, s) => LinearRampTo(v, r, s + d)
    case SetValueAtTime(v, s) => SetValueAtTime(v, s + d)
  }

  /** Every event moved `d` seconds later on the clock. */
  function Shift(evs: seq<Event>, d: real): (r: seq<Event>)
    ensures |r| == |evs|
    ensures forall i :: 0 <= i < |evs| ==> r[i] == ShiftEvent(evs[i], d)
  {
    if evs == [] then [] else [ShiftEvent(evs[0], d)] + Shift(evs[1..], d)
  }

  /** The value of a parameter created with value `init` and then given the events
      `evs`, in that order, at clock time `t`. */
  function ValueAt(init: real, evs: seq<Event>, t: real): real
    decreases |evs|
  {
    if evs == [] then init
    else
      var e := evs[|evs| - 1];
      var before := evs[..|evs| - 1];
      Step(ValueAt(init, before, t), ValueAt(init, before, Start(e)), e, t)
  }

  /** The value at `t` once event `e` has been added to a timeline whose value at
      `t` was `prior` and whose value when `e` starts is `atStart`. */
  function Step(prior: real, atStart: real, e: Event, t: real): real {
    if t < Start(e) then prior
    else
      match e
      case SetValueAtTime(v, _) => v
      case LinearRampTo(v, d, s) =>
        if t >= s + d then v else Lerp(atStart, v, (t - s) / d)
  }

  /** The point a fraction `k` of the way from `a` to `b`. */
  function Lerp(a: real, b: real, k: real): real {
    a + (b - a) * k
  }

  lemma ProductNonNegative(x: real, y: real)
    requires x >= 0.0 && y >= 0.0
    ensures x * y >= 0.0
  {
  }

  /** A point a fraction `k` of the way from `a` to `b` lies between them. */
  lemma LerpBetween(a: real, b: real, k: real, lo: real, hi: real)
    requires lo <= a <= hi && lo <= b <= hi
    requires 0.0 <= k <= 1.0
    ensures lo <= Lerp(a, b, k) <= hi
  {
    var step := (b - a) * k;
    assert step + (b - a) * (1.0 - k) == b - a;
    if a <= b {
      ProductNonNegative(b - a, k);
      ProductNonNegative(b - a, 1.0 - k);
    } else {
      ProductNonNegative(a - b, k);
      ProductNonNegative(a - b, 1.0 - k);
    }
  }

  /** A parameter never leaves a band that holds its initial value and every
      event's final value: ramps only interpolate. */
  lemma {:induction false} ValueWithin(init: real, evs: seq<Event>, t: real, lo: real, hi: real)
    requires lo <= init <= hi
    requires forall i :: 0 <= i < |evs| ==> lo <= Final(evs[i]) <= hi
    ensures lo <= ValueAt(init, evs, t) <= hi
    decreases |evs|
  {
    if evs != [] {
      var e := evs[|evs| - 1];
      var before := evs[..|evs| - 1];
      assert forall i :: 0 <= i < |before| ==> before[i] == evs[i];
      assert lo <= Final(e) <= hi;
      ValueWithin(init, before, t, lo, hi);
      ValueWithin(init, before, Start(e), lo, hi);
      StepWithin(ValueAt(init, before, t), ValueAt(init, before, Start(e)), e, t, lo, hi);
    }
  }

  /** One event keeps the parameter in a band that holds its prior value, its
      value when the event starts, and the event's final value. */
  lemma StepWithin(prior: real, atStart: real, e: Event, t: real, lo: real, hi: real)
    requires lo <= prior <= hi && lo <= atStart <= hi && lo <= Final(e) <= hi
    ensures lo <= Step(prior, atStart, e, t) <= hi
  {
    if e.LinearRampTo? && e.startTime <= t < e.startTime + e.rampTime {
      LerpBetween(atStart, e.target, (t - e.startTime) / e.rampTime, lo, hi);
    }
  }

  /** Moving every event `d` seconds later moves the whole curve `d` seconds later. */
  lemma {:induction false} ValueShifted(init: real, evs: seq<Event>, d: real, t: real)
    ensures ValueAt(init, Shift(evs, d), t) == ValueAt(init, evs, t - d)
    decreases |evs|
  {
    if evs != [] {
      var n := |evs| - 1;
      var e := evs[n];
      ShiftLast(evs, d);
      ValueShifted(init, evs[..n], d, t);
      ValueShifted(init, evs[..n], d, Start(e) + d);
      LastStep(init, Shift(evs, d), t);
      LastStep(init, evs, t - d);
      StepShifted(ValueAt(init, evs[..n], t - d), ValueAt(init, evs[..n], Start(e)), e, d, t);
    }
  }

  /** Shifting commutes with splitting off the last event. */
  lemma ShiftLast(evs: seq<Event>, d: real)
    requires evs != []
    ensures Shift(evs, d)[..|evs| - 1] == Shift(evs[..|evs| - 1], d)
    ensures Shift(evs, d)[|evs| - 1] == ShiftEvent(evs[|evs| - 1], d)
  {
    assert Shift(evs, d)[..|evs| - 1] == Shift(evs[..|evs| - 1], d);
  }

  /** The value on a timeline is the last event's step over the value before it. */
  lemma LastStep(init: real, evs: seq<Event>, t: real)
    requires evs != []
    ensures var before := evs[..|evs| - 1];
      ValueAt(init, evs, t) == Step(ValueAt(init, before, t), ValueAt(init, before, Start(evs[|evs| - 1])), evs[|evs| - 1], t)
  {
  }

  /** One event, moved `d` seconds later, has the same effect `d` seconds later. */
  lemma StepShifted(prior: real, atStart: real, e: Event, d: real, t: real)
    ensures Step(prior, atStart, ShiftEvent(e, d), t) == Step(prior, atStart, e, t - d)
  {
    if e.LinearRampTo? {
      assert t - (e.startTime + d) == (t - d) - e.startTime;
    }
  }

  /** A ramp to a value is complete, and the value held, from its end on. */
  lemma RampReaches(init: real, evs: seq<Event>, v: real, d: real, s: real, t: real)
    requires t >= s + d && t >= s
    ensures ValueAt(init, evs + [LinearRampTo(v, d, s)], t) == v
  {
  }

  /** A value set at time `s` is held from `s` on and leaves the earlier curve alone. */
  lemma SetValueOverrides(init: real, evs: seq<Event>, v: real, s: real, t: real)
    ensures ValueAt(init, evs + [SetValueAtTime(v, s)], t) == if t < s then ValueAt(init, evs, t) else v
  {
    var all := evs + [SetValueAtTime(v, s)];
    assert all[..|all| - 1] == evs;
  }
}
