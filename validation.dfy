/** Submission checking of `App._newWorkout`: the form's numbers are checked
    per workout type and either a workout is built or nothing happens. */
module Validation {
  import opened JsNumbers
  import opened Workouts

  /** `validInput(...inputs)`: every input is a finite number. */
  predicate ValidInput(inputs: seq<Num>) {
    forall i :: 0 <= i < |inputs| ==> IsFinite(inputs[i])
  }

  /** `isPositive(...values)`: every value compares greater than 0. */
  predicate IsPositive(values: seq<Num>) {
    forall i :: 0 <= i < |values| ==> GreaterThanZero(values[i])
  }

  /** The form's fields after `+` conversion. The type selector decides which
      variant field is read: cadence for running, elevation for cycling. */
  datatype Submission =
    | RunningForm(distance: Num, duration: Num, cadence: Num)
    | CyclingForm(distance: Num, duration: Num, elevation: Num)

  /** The workout a submission produces at the pending click position, or
      None when the alert fires and `_newWorkout` returns before the push. */
  function Create(s: Submission, at: Coords, stamp: Stamp): (r: Option<Workout>)
    ensures s.RunningForm? ==>
      (r.Some? <==> && s.distance.Finite? && s.duration.Finite? && s.cadence.Finite?
                    && s.distance.value > 0.0 && s.duration.value > 0.0 && s.cadence.value > 0.0)
    ensures s.CyclingForm? ==>
      (r.Some? <==> && s.distance.Finite? && s.duration.Finite? && s.elevation.Finite?
                    && s.distance.value > 0.0 && s.duration.value > 0.0)
    ensures r.Some? ==> && WellFormed(r.value) && r.value.clicks == 0
                        && r.value.coords == at && r.value.id == stamp.id && r.value.date == stamp.date
                        && r.value.distance == s.distance.value && r.value.duration == s.duration.value
    ensures r.Some? && s.RunningForm? ==> r.value.Running? && r.value.cadence == s.cadence.value
    ensures r.Some? && s.CyclingForm? ==> r.value.Cycling? && r.value.elevationGain == s.elevation.value
  {
    match s
    case RunningForm(distance, duration, cadence) =>
      var inputs := [distance, duration, cadence];
      if !ValidInput(inputs) || !IsPositive(inputs) then None
      else
        assert IsFinite(inputs[0]) && IsFinite(inputs[1]) && IsFinite(inputs[2]);
        assert GreaterThanZero(inputs[0]) && GreaterThanZero(inputs[1]) && GreaterThanZero(inputs[2]);
        Some(NewRunning(at, duration.value, distance.value, cadence.value, stamp))
    case CyclingForm(distance, duration, elevation) =>
      var inputs := [distance, duration, elevation];
      if !ValidInput(inputs) || !IsPositive([distance, duration]) then None
      else
        assert IsFinite(inputs[0]) && IsFinite(inputs[1]) && IsFinite(inputs[2]);
        assert GreaterThanZero([distance, duration][0]) && GreaterThanZero([distance, duration][1]);
        Some(NewCycling(at, duration.value, distance.value, elevation.value, stamp))
  }
}
