/** The application controller `App` of script.js with the map, the form and
    the list left to their libraries: the state it keeps (the log, the pending
    map click) and the stored copy of the log in `localStorage`. */
module Mapty {
  import opened Workouts
  import opened Validation
  import opened Persistence
  import opened WorkoutLog

  class App {
    /** `#workouts`, in creation order. */
    var workouts: seq<Workout>
    /** `#mapEvent`, reduced to the clicked position; None until the first map click. */
    var mapEvent: Option<Coords>
    /** Whether `_loadMap` has created `#map` and bound the map-click handler. */
    var mapReady: bool
    /** The `localStorage` item under the key 'workouts', already parsed; None when absent. */
    var storage: Option<seq<Record>>

    /** `new App()`: the log starts empty and is replaced by the stored one, if
        any; the position request is still pending, so there is no map yet. */
    constructor(stored: Option<seq<Record>>)
      ensures storage == stored && mapEvent == None && !mapReady
      ensures workouts == if stored.Some? then Load(stored.value) else []
    {
      workouts := [];
      mapEvent := None;
      mapReady := false;
      storage := stored;
      new;
      GetLocalStorage();
    }

    /** `_getLocalStorage`: an absent item leaves the log as it was; otherwise
        the whole log is replaced by the reconstructed stored records. */
    method GetLocalStorage()
      modifies this`workouts
      ensures storage.None? ==> workouts == old(workouts)
      ensures storage.Some? ==> workouts == Load(storage.value)
    {
      if storage.Some? {
        workouts := Load(storage.value);
      }
    }

    /** `_loadMap`, once the position is known: the map exists and accepts clicks; the log is unchanged. */
    method LoadMap()
      modifies this`mapReady
      ensures mapReady
    {
      mapReady := true;
    }

    /** `_showForm`: a map click remembers its position for the next submission. */
    method ShowForm(at: Coords)
      requires mapReady
      modifies this`mapEvent
      ensures mapEvent == Some(at)
    {
      mapEvent := Some(at);
    }

    /** `_newWorkout`: a rejected submission changes nothing; an accepted one
        appends exactly one workout at the pending position and writes the whole
        log through to storage. */
    method NewWorkout(s: Submission, stamp: Stamp) returns (created: Option<Workout>)
      requires mapEvent.Some?
      modifies this`workouts, this`storage
      ensures created == Create(s, mapEvent.value, stamp)
      ensures created.None? ==> workouts == old(workouts) && storage == old(storage)
      ensures created.Some? ==> && workouts == old(workouts) + [created.value]
                                && created.value.coords == mapEvent.value
                                && storage == Some(Save(workouts))
                                && Load(storage.value) == workouts
    {
      created := Create(s, mapEvent.value, stamp);
      if created.None? {
        return;
      }
      workouts := workouts + [created.value];
      SetLocalStorage();
    }

    /** `_showClickedWorkout`: a click off any entry does nothing; otherwise the
        first workout with the entry's id gets one more click and its position
        is where the map re-centres. A stale id, or a click before the map
        exists (the source throws at `setView`, before `_click`), changes nothing. */
    method ShowClickedWorkout(target: Option<string>) returns (center: Option<Coords>)
      modifies this`workouts
      ensures target.None? || !mapReady ==> workouts == old(workouts) && center == None
      ensures target.Some? && mapReady ==> workouts == SelectById(old(workouts), target.value)
      ensures target.Some? && mapReady ==>
                center == match FirstIndexOf(old(workouts), target.value)
                          case Some(i) => Some(old(workouts)[i].coords)
                          case None => None
    {
      if target.None? || !mapReady {
        return None;
      }
      var found := FirstIndexOf(workouts, target.value);
      if found.None? {
        return None;
      }
      center := Some(workouts[found.value].coords);
      workouts := workouts[found.value := Click(workouts[found.value])];
    }

    /** `_setLocalStorage`: the whole log overwrites the stored item. */
    method SetLocalStorage()
      modifies this`storage
      ensures storage == Some(Save(workouts))
      ensures Load(storage.value) == workouts
    {
      storage := Some(Save(workouts));
      LoadSaveRoundTrip(workouts);
    }

    /** `reset`: the stored item is removed and the page reloads, which builds
        a fresh App over empty storage. */
    method Reset()
      modifies this
      ensures storage == None && workouts == [] && mapEvent == None && !mapReady
    {
      storage := None;
      workouts := [];
      mapEvent := None;
      mapReady := false;
    }
  }
}
