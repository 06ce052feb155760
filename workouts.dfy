/** The workout entity (classes Workout, Running and Cycling of script.js):
    a tagged variant with the derived metric and the title fixed when it is
    built, and a selection counter. */
module Workouts {
  import opened JsNumbers

  datatype Option<T> = None | Some(value: T)

  /** A map position, the `[lat, lng]` pair of the source. */
  datatype Coords = Coords(lat: real, lng: real)

  /** Month index as `Date.getMonth()` returns it, and day of the month as `Date.getDate()` returns it. */
  type Month = m: int | 0 <= m < 12
  type Day = d: int | 1 <= d <= 31 witness 1

  /** The creation date: the timestamp and the calendar fields the title uses. */
  datatype Date = Date(time: int, month: Month, day: Day)

  /** What the clock supplies at construction: the id string and the date. */
  datatype Stamp = Stamp(id: string, date: Date)

  /** The `type` discriminator; only these two values exist. */
  datatype WorkoutType = RunningType | CyclingType

  /** A workout. `pace` (minutes per km) and `speed` (km per hour) are the
      derived metrics, stored, never recomputed. */
  datatype Workout =
    | Running(id: string, date: Date, coords: Coords, duration: real, distance: real,
              title: string, clicks: nat, cadence: real, pace: real)
    | Cycling(id: string, date: Date, coords: Coords, duration: real, distance: real,
              title: string, clicks: nat, elevationGain: real, speed: real)
  {
    function Type(): WorkoutType {
      if Running? then RunningType else CyclingType
    }
  }

  // ----- Title: "<Capitalised type> on <Month name> <day>" -----

  const MonthNames: seq<string> :=
    ["January", "February", "March", "April", "May", "June", "July",
     "August", "September", "October", "November", "December"]

  /** The string value of the `type` field. */
  function TypeName(t: WorkoutType): string {
    match t
    case RunningType => "running"
    case CyclingType => "cycling"
  }

  /** `toUpperCase` on one lower-case ASCII letter; other characters are kept. */
  function UpperCase(c: char): char {
    if 'a' <= c <= 'z' then (c as int - 32) as char else c
  }

  /** `s[0].toUpperCase() + s.slice(1)` */
  function Capitalize(s: string): string
    requires |s| > 0
  {
    [UpperCase(s[0])] + s[1..]
  }

  predicate IsDigit(c: char) {
    '0' <= c <= '9'
  }

  function DigitChar(d: nat): char
    requires d < 10
  {
    (48 + d) as char
  }

  /** The decimal text of a number, as template-literal interpolation writes it. */
  function NatToString(n: nat): (r: string)
    ensures |r| > 0
    ensures forall i :: 0 <= i < |r| ==> IsDigit(r[i])
    decreases n
  {
    if n < 10 then [DigitChar(n)] else NatToString(n / 10) + [DigitChar(n % 10)]
  }

  /** Reads decimal text back: the partner of NatToString. */
  function ParseNat(s: string): nat
    requires forall i :: 0 <= i < |s| ==> IsDigit(s[i])
  {
    if |s| == 0 then 0
    else
      assert IsDigit(s[|s| - 1]);
      10 * ParseNat(s[..|s| - 1]) + (s[|s| - 1] as int - 48)
  }

  lemma {:induction false} ParseNatToString(n: nat)
    ensures ParseNat(NatToString(n)) == n
    decreases n
  {
    var s := NatToString(n);
    if n >= 10 {
      ParseNatToString(n / 10);
      assert s[..|s| - 1] == NatToString(n / 10);
    }
  }

  /** The month name after " on ", then a space, then the day. */
  function TitleTail(m: Month, day: Day): string {
    MonthNames[m] + " " + NatToString(day)
  }

  /** The title `_getTitle` builds; it depends on the type and the date only. */
  function Title(t: WorkoutType, m: Month, day: Day): (r: string)
    ensures r == (if t == RunningType then "Running" else "Cycling") + " on " + MonthNames[m] + " " + NatToString(day)
  {
    Capitalize(TypeName(t)) + " on " + TitleTail(m, day)
  }

  /** Position of the first space in `s` (|s| when there is none). */
  function SpaceIndex(s: string): (k: nat)
    ensures k <= |s|
  {
    if |s| == 0 || s[0] == ' ' then 0 else 1 + SpaceIndex(s[1..])
  }

  lemma {:induction false} SpaceIndexAfter(a: string, b: string)
    requires forall i :: 0 <= i < |a| ==> a[i] != ' '
    ensures SpaceIndex(a + " " + b) == |a|
  {
    if |a| > 0 {
      assert (a + " " + b)[1..] == a[1..] + " " + b;
      SpaceIndexAfter(a[1..], b);
    }
  }

  /** Text split at a first space that neither left part contains. */
  lemma SplitAtSpace(a: string, b: string, c: string, e: string)
    requires forall i :: 0 <= i < |a| ==> a[i] != ' '
    requires forall i :: 0 <= i < |c| ==> c[i] != ' '
    requires a + " " + b == c + " " + e
    ensures a == c && b == e
  {
    SpaceIndexAfter(a, b);
    SpaceIndexAfter(c, e);
    var s := a + " " + b;
    assert a == s[..|a|] && b == s[|a| + 1..];
    assert c == s[..|c|] && e == s[|c| + 1..];
  }

  /** Month names are distinct and contain no space. */
  lemma MonthNameFacts(m: Month, n: Month)
    ensures forall i :: 0 <= i < |MonthNames[m]| ==> MonthNames[m][i] != ' '
    ensures MonthNames[m] == MonthNames[n] ==> m == n
  {
    if m == 0 {} else if m == 1 {} else if m == 2 {} else if m == 3 {}
    else if m == 4 {} else if m == 5 {} else if m == 6 {} else if m == 7 {}
    else if m == 8 {} else if m == 9 {} else if m == 10 {} else {}
  }

  lemma TailDeterminesDate(m1: Month, d1: Day, m2: Month, d2: Day)
    requires TitleTail(m1, d1) == TitleTail(m2, d2)
    ensures m1 == m2 && d1 == d2
  {
    MonthNameFacts(m1, m2);
    MonthNameFacts(m2, m1);
    SplitAtSpace(MonthNames[m1], NatToString(d1), MonthNames[m2], NatToString(d2));
    ParseNatToString(d1);
    ParseNatToString(d2);
  }

  /** Two titles are equal exactly when type, month and day are. */
  lemma TitleDeterminesTypeAndDate(t1: WorkoutType, m1: Month, d1: Day, t2: WorkoutType, m2: Month, d2: Day)
    ensures Title(t1, m1, d1) == Title(t2, m2, d2) <==> t1 == t2 && m1 == m2 && d1 == d2
  {
    var s1, s2 := Title(t1, m1, d1), Title(t2, m2, d2);
    assert Capitalize(TypeName(RunningType)) == "Running";
    assert Capitalize(TypeName(CyclingType)) == "Cycling";
    if s1 == s2 {
      assert s1[..7] == Capitalize(TypeName(t1));
      assert s2[..7] == Capitalize(TypeName(t2));
      assert s1[11..] == TitleTail(m1, d1);
      assert s2[11..] == TitleTail(m2, d2);
      TailDeterminesDate(m1, d1, m2, d2);
    }
  }

  // ----- Construction -----

  /** `new Running(coords, duration, distance, cadence)` with clicks starting at 0. */
  function NewRunning(at: Coords, duration: real, distance: real, cadence: real, stamp: Stamp): (w: Workout)
    requires distance != 0.0
    ensures w.Type() == RunningType && w.coords == at && w.id == stamp.id && w.date == stamp.date
    ensures w.duration == duration && w.distance == distance && w.cadence == cadence && w.clicks == 0
    ensures w.pace * distance == duration
    ensures w.title == Title(RunningType, stamp.date.month, stamp.date.day)
  {
    Running(stamp.id, stamp.date, at, duration, distance,
            Title(RunningType, stamp.date.month, stamp.date.day), 0, cadence, duration / distance)
  }

  /** `new Cycling(coords, duration, distance, elevationGain)` with clicks starting at 0. */
  function NewCycling(at: Coords, duration: real, distance: real, elevationGain: real, stamp: Stamp): (w: Workout)
    requires duration != 0.0
    ensures w.Type() == CyclingType && w.coords == at && w.id == stamp.id && w.date == stamp.date
    ensures w.duration == duration && w.distance == distance && w.elevationGain == elevationGain && w.clicks == 0
    ensures w.speed * duration == 60.0 * distance
    ensures w.title == Title(CyclingType, stamp.date.month, stamp.date.day)
  {
    Cycling(stamp.id, stamp.date, at, duration, distance,
            Title(CyclingType, stamp.date.month, stamp.date.day), 0, elevationGain, distance / (duration / 60.0))
  }

  /** What every workout built from an accepted submission satisfies. */
  predicate WellFormed(w: Workout) {
    && w.distance > 0.0
    && w.duration > 0.0
    && w.title == Title(w.Type(), w.date.month, w.date.day)
    && match w
       case Running(_, _, _, _, _, _, _, cadence, pace) => cadence > 0.0 && pace * w.distance == w.duration
       case Cycling(_, _, _, _, _, _, _, _, speed) => speed * w.duration == 60.0 * w.distance
  }

  /** The metric of a well-formed workout is positive. */
  lemma MetricPositive(w: Workout)
    requires WellFormed(w)
    ensures w.Running? ==> w.pace > 0.0
    ensures w.Cycling? ==> w.speed > 0.0
  {
    if w.Running? {
      assert w.pace * w.distance > 0.0;
    } else {
      assert w.speed * w.duration > 0.0;
    }
  }

  // ----- Selection counter -----

  /** `_click`: one more selection; nothing else about the workout changes. */
  function Click(w: Workout): (r: Workout)
    ensures r.clicks == w.clicks + 1
    ensures r.(clicks := w.clicks) == w
    ensures WellFormed(w) ==> WellFormed(r)
  {
    w.(clicks := w.clicks + 1)
  }

  /** A workout selected k times. */
  function ClickTimes(w: Workout, k: nat): Workout
  {
    if k == 0 then w else Click(ClickTimes(w, k - 1))
  }

  /** The counter counts selections exactly. */
  lemma {:induction false} ClicksCountSelections(w: Workout, k: nat)
    ensures ClickTimes(w, k).clicks == w.clicks + k
    ensures ClickTimes(w, k).(clicks := w.clicks) == w
  {
    if k > 0 {
      ClicksCountSelections(w, k - 1);
    }
  }

  // ----- The counter as the source writes it -----

  /** A JavaScript property that may be missing. */
  datatype JsCounter = Undefined | Number(n: Num)

  /** `this.clicks++`: a missing property converts to NaN first. */
  function PostIncrement(c: JsCounter): JsCounter {
    match c
    case Undefined => Number(NaN)
    case Number(n) => Number(PlusOne(n))
  }

  /** The `clicks` property after k selections, the field initialiser being commented out. */
  function ClicksAsWritten(k: nat): JsCounter {
    if k == 0 then Undefined else PostIncrement(ClicksAsWritten(k - 1))
  }

  /** As written, the counter is NaN after the first selection and never counts. */
  lemma {:induction false} ClicksAsWrittenIsNaN(k: nat)
    requires k >= 1
    ensures ClicksAsWritten(k) == Number(NaN)
    ensures ClicksAsWritten(k) != Number(Finite(k as real))
  {
    if k > 1 {
      ClicksAsWrittenIsNaN(k - 1);
    }
  }
}
