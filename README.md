# Mapty workout core in Dafny

This project models the workout domain of Mapty, a map-based workout log (`script.js`).
A user clicks the map and submits a running or cycling form.
The submission is checked. An accepted workout is built with its derived metric and its title, is appended to the in-memory log, and the whole log is written to `localStorage`.
On start-up, the stored log is read back and each record gets its variant again from its `type` tag.
Selecting a list entry finds the workout by id and counts the click.

Modules:

- `JsNumbers` (`jsnumbers.dfy`): the JavaScript Number values the form produces (finite, NaN, ±Infinity), `Number.isFinite` and `> 0`.
- `Workouts` (`workouts.dfy`): the `Workout` datatype with one constructor per type tag (`Running`, `Cycling`). It also holds the constructors `NewRunning`/`NewCycling`, the title, `_click`, and the click counter as the source writes it.
- `Validation` (`validation.dfy`): the accept/reject rules of `_newWorkout`, as `Create`.
- `Persistence` (`persistence.dfy`): the stored records, `Save`, the tag-dispatching `Load`, and `LoadAsWritten`, which models how the source reconstructs the log.
- `WorkoutLog` (`log.dfy`): find-by-id and the click on the found entry, as functions on the log.
- `Mapty` (`app.dfy`): the class `App` with fields `workouts` (`#workouts`), `mapEvent` (`#mapEvent`), `mapReady` (`#map` exists) and `storage` (the `localStorage` item). Its methods carry `modifies` frames.

Decisions about the source's rough edges:

- `clicks` starts at 0. The source leaves it undefined (its initialiser at script.js:13 is commented out), so `_click` yields NaN. This is logged under Findings.
- A selected id that matches no workout is a no-op: the log is unchanged and there is no map centre. The source would crash at script.js:266.
- The workout type is a two-constructor datatype, so the source's path that pushes `undefined` for another type cannot arise.
- A stored record with an unknown `type` is skipped by `Load`. The source keeps it as a plain object. This is logged under Findings, and `LoadAsWritten` models the source's behaviour.
- `NewWorkout` requires a pending map click, because the source dereferences `#mapEvent` (script.js:155).
- `ShowForm` requires the map, because its handler is registered on the map (script.js:102) and so cannot fire before the map exists.
- A click on a list entry before the map exists is a no-op. The entry-click handler is bound in the constructor (script.js:78-81), and stored entries are listed there (script.js:293-295), before geolocation answers. The source then throws at `this.#map.setView` (script.js:266) before `_click` runs, so the log stays unchanged.

A rejected submission shows one alert and names no field (script.js:165, 175); `Create` returns `None`.
Cadence may be any positive finite number (script.js:161-164).

## Model

| member | source | states |
|---|---|---|
| `Workouts.NewRunning` | script.js:34-46 | builds a running workout from coords, duration, distance and cadence with id and date from the clock; `pace * distance == duration` (pace is minutes per km), clicks 0, title from type and date |
| `Workouts.NewCycling` | script.js:49-61 | builds a cycling workout; `speed * duration == 60 * distance` (km per hour), clicks 0, title from type and date |
| `Workouts.Title` | script.js:21-27 | the title is the capitalised type ("Running"/"Cycling"), " on ", the month's name, a space and the day |
| `Workouts.TitleDeterminesTypeAndDate` | script.js:21-27 | two titles are equal if and only if type, month and day are equal, so the title depends on these alone and loses none of them |
| `Workouts.ParseNatToString` | script.js:24-26 | the day written into the title reads back as the same number |
| `Workouts.MetricPositive` | script.js:43-46 | a well-formed workout (accepted inputs) has positive pace or speed |
| `Workouts.Click` | script.js:29-31 | `_click` raises clicks by exactly one, changes no other field and keeps a workout well formed |
| `Workouts.ClicksCountSelections` | script.js:29-31 | after k selections the counter has grown by exactly k and nothing else has changed |
| `Workouts.ClicksAsWrittenIsNaN` | script.js:13-31 | with the initialiser commented out, the counter is NaN after any number of selections of at least one, never the count |
| `Validation.Create` | script.js:140-177 | running accepted iff distance, duration, cadence are all finite and positive; cycling accepted iff all three are finite and distance and duration are positive (elevation of any sign); an accepted workout is well formed, at the pending click, with the submitted values and clicks 0 |
| `Persistence.ToRecord` | script.js:275-277 | a workout's stored record carries its type tag and every field as it is (clicks, the variant field and the derived metric included), and reconstructing the record gives the same workout back |
| `Persistence.FromRecord` | script.js:286-290 | a record yields a workout iff its tag is "running" or "cycling", and the workout's variant is the one the tag names |
| `Persistence.RecordRoundTrip` | script.js:286-290 | a recognised record is reproduced exactly by storing its reconstruction |
| `Persistence.Save` | script.js:275-277 | the whole log is written, one record per workout in log order, each reconstructing its workout |
| `Persistence.Load` | script.js:279-291 | never more workouts than records; when every tag is known, same count and order, each record reconstructed as its tag's variant |
| `Persistence.LoadAppend` | script.js:286-290 | loading keeps order: a concatenation of stored arrays loads as the concatenation of the loaded logs |
| `Persistence.SkipUnknown` | script.js:286-290 | a record with an unknown tag is dropped without disturbing the records around it |
| `Persistence.LoadSaveRoundTrip` | script.js:275-291 | loading the saved log gives back the same log, clicks and stored metrics included |
| `Persistence.LoadAsWritten` | script.js:286-291 | the source's reconstruction keeps count and order; running and cycling tags become their variant; any other record stays a plain object |
| `Persistence.UnknownTagKeptAsWritten` | script.js:286-291 | a stored running record beside a swimming one loads as two entries in the source, the second a plain object, while `Load` gives the run alone |
| `WorkoutLog.FirstIndexOf` | script.js:264 | finds the first workout with the id: it has that id and no earlier entry does; none is found iff no entry has the id |
| `WorkoutLog.SelectById` | script.js:261-273 | selection raises the clicks of the first workout with the id by one, leaves its other fields and every other entry unchanged, and keeps the length; a stale id changes nothing |
| `WorkoutLog.SelectKeepsWellFormed` | script.js:271 | selection keeps every workout of a well-formed log well formed |
| `WorkoutLog.SelectAddsOneClick` | script.js:261-273 | the total of all clicks in the log grows by exactly one on a found id and by zero on a stale one |
| `Mapty.App.constructor` | script.js:69-82 | the log starts empty and is replaced by the stored log when one is present; no pending click, no map yet |
| `Mapty.App.GetLocalStorage` | script.js:279-296 | an absent item leaves the log as it was; otherwise the log becomes the reconstruction of the stored records |
| `Mapty.App.LoadMap` | script.js:92-106 | once the position is known the map is ready; the log is untouched |
| `Mapty.App.ShowForm` | script.js:109-113 | a map click becomes the pending position |
| `Mapty.App.NewWorkout` | script.js:140-193 | a rejected submission leaves log and storage unchanged; an accepted one appends exactly one workout at the pending position after the unchanged earlier entries, and the stored item then loads back as the new log |
| `Mapty.App.ShowClickedWorkout` | script.js:261-273 | a click off any entry, or any click before the map exists, changes nothing and centres nothing; otherwise the log becomes `SelectById` of the old log, and the map centre is the found workout's coords, or none for a stale id |
| `Mapty.App.SetLocalStorage` | script.js:275-277 | the stored item is overwritten by the whole log and loads back as exactly the log |
| `Mapty.App.Reset` | script.js:298-301 | the stored item is removed and the reloaded app has an empty log, no pending click and no map |

## Findings

| source | as written | input that shows it | evidently intended | confidence | as-written member | corrected member |
|---|---|---|---|---|---|---|
| script.js:13 | the `clicks = 0` initialiser is commented out, so `this.clicks++` turns undefined into NaN | build any workout and select it once: clicks is NaN, and stays NaN | clicks starts at 0 and counts selections | high; not executed | `Workouts.ClicksAsWrittenIsNaN` | `Workouts.ClicksCountSelections` |
| script.js:286-290 | a stored record whose `type` is neither running nor cycling is kept in `#workouts` as a plain object without `_click` | stored array holding a running record and a record tagged "swimming": two entries, and selecting the second one calls a missing method | such a record is skipped and the rest of the log loads | medium; not executed | `Persistence.UnknownTagKeptAsWritten` | `Persistence.Load` |

## Left out

- The Leaflet map, tiles, markers and popups (script.js:95-102, 195-211) are external rendering. `LoadMap` only records that the map exists, and `ShowClickedWorkout` returns the position to re-centre on.
- The HTML list, the form's show/hide/reset, `_toggleElevationField` and the `setTimeout` in `_initForm` (script.js:109-138, 213-259) are DOM presentation. In particular, the second map click toggling the form hidden again is not modelled.
- Geolocation (script.js:83-91) is an asynchronous browser callback. Its success is `LoadMap`; its failure only shows an alert and is not modelled.
- `localStorage` text, `JSON.stringify`/`JSON.parse` and `location.reload` (script.js:276, 280, 298-301) are I/O and serialisation. The stored item is modelled as already-parsed records, so an unparsable item (which makes `JSON.parse` throw) is not modelled.
- Record: the stored object's variant-specific keys (`cadence`/`pace` or `elevationGain`/`speed`) are folded into two fields chosen by the tag; the date is kept as the model's date rather than as the ISO text JSON writes.
- NewRunning: pace is the exact quotient `duration / distance`, not the one-decimal string `toFixed(1)` produces (script.js:44).
- NewCycling: speed is the exact quotient `distance / (duration / 60)`, not the one-decimal string `toFixed(1)` produces (script.js:59).
- The clock (`new Date()`, `Date.now()` and the id's `slice(-10)`, script.js:15-16) is not modelled: the id, timestamp, month and day come in as a `Stamp`. Id uniqueness within a log therefore rests on the clock and is not proved; selection acts on the first match.
- The conversion of the input text by unary `+` (script.js:153-154, 160, 170) is not modelled: a submission carries the converted numbers.
- ShowClickedWorkout: a click before the map exists is modelled as a no-op, whereas the source throws an error at script.js:266. The state is the same either way, but the thrown error itself is not modelled.
- Workouts are values, so `_click` on the object found by `find` is modelled as replacing that log entry with its clicked copy. Object identity and aliasing are not modelled.
- The demonstration workout and the `console.log` calls (script.js:64-65, 180, 272, 283) are debugging output.
