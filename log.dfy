/** Selection on the in-memory workout log (`_showClickedWorkout`): the first
    workout with the clicked entry's id is found and its counter is bumped. */
module WorkoutLog {
  import opened Workouts

  /** `this.#workouts.find(workout => workout.id === id)`, as a position. */
  function FirstIndexOf(log: seq<Workout>, id: string): (r: Option<nat>)
    ensures r.Some? ==> r.value < |log| && log[r.value].id == id
    ensures r.Some? ==> forall j :: 0 <= j < r.value ==> log[j].id != id
    ensures r.None? <==> forall j :: 0 <= j < |log| ==> log[j].id != id
  {
    if |log| == 0 then None
    else if log[0].id == id then Some(0)
    else match FirstIndexOf(log[1..], id)
      case None => None
      case Some(k) => Some(k + 1)
  }

  /** The log after selecting the entry with `id`: the found workout has been
      clicked once more; a stale id changes nothing. */
  function SelectById(log: seq<Workout>, id: string): (r: seq<Workout>)
    ensures |r| == |log|
    ensures FirstIndexOf(log, id).None? ==> r == log
    ensures FirstIndexOf(log, id).Some? ==>
      var i := FirstIndexOf(log, id).value;
      && r[i].clicks == log[i].clicks + 1
      && r[i].(clicks := log[i].clicks) == log[i]
      && forall j :: 0 <= j < |log| && j != i ==> r[j] == log[j]
  {
    match FirstIndexOf(log, id)
    case None => log
    case Some(i) => log[i := Click(log[i])]
  }

  /** Selecting keeps every workout well formed. */
  lemma SelectKeepsWellFormed(log: seq<Workout>, id: string)
    requires forall j :: 0 <= j < |log| ==> WellFormed(log[j])
    ensures var r := SelectById(log, id); forall j :: 0 <= j < |r| ==> WellFormed(r[j])
  {
  }

  /** All selections recorded in the log. */
  function TotalClicks(log: seq<Workout>): nat {
    if |log| == 0 then 0 else log[0].clicks + TotalClicks(log[1..])
  }

  lemma {:induction false} TotalClicksUpdate(log: seq<Workout>, i: nat, w: Workout)
    requires i < |log|
    ensures TotalClicks(log[i := w]) + log[i].clicks == TotalClicks(log) + w.clicks
  {
    if i > 0 {
      assert log[i := w][1..] == log[1..][i - 1 := w];
      TotalClicksUpdate(log[1..], i - 1, w);
    } else {
      assert log[i := w][1..] == log[1..];
    }
  }

  /** One selection adds exactly one click to the log, or none for a stale id. */
  lemma SelectAddsOneClick(log: seq<Workout>, id: string)
    ensures TotalClicks(SelectById(log, id)) == TotalClicks(log) + (if FirstIndexOf(log, id).Some? then 1 else 0)
  {
    match FirstIndexOf(log, id)
    case None =>
    case Some(i) => TotalClicksUpdate(log, i, Click(log[i]));
  }
}
