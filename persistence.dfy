/** The persisted form of the workout log (`_setLocalStorage`, `_getLocalStorage`):
    the whole log is written as one array of plain records and read back by
    dispatching on each record's `type` tag. */
module Persistence {
  import opened Workouts

  /** One element of the stored array: the plain object `JSON.parse` returns.
      `variantField` is the cadence of a running record and the elevation gain
      of a cycling record; `metric` is its pace or its speed. */
  datatype Record = Record(tag: string, id: string, date: Date, coords: Coords,
                           duration: real, distance: real, title: string, clicks: nat,
                           variantField: real, metric: real)

  /** A tag the reconstruction knows. */
  predicate Recognised(r: Record) {
    r.tag == "running" || r.tag == "cycling"
  }

  /** A workout as `JSON.stringify` writes it: every field kept, the derived metric included. */
  function ToRecord(w: Workout): (r: Record)
    ensures r.tag == TypeName(w.Type()) && Recognised(r)
    ensures && r.id == w.id && r.date == w.date && r.coords == w.coords && r.title == w.title
            && r.duration == w.duration && r.distance == w.distance && r.clicks == w.clicks
    ensures r.variantField == (if w.Running? then w.cadence else w.elevationGain)
    ensures r.metric == (if w.Running? then w.pace else w.speed)
    ensures FromRecord(r) == Some(w)
  {
    match w
    case Running(id, date, coords, duration, distance, title, clicks, cadence, pace) =>
      Record("running", id, date, coords, duration, distance, title, clicks, cadence, pace)
    case Cycling(id, date, coords, duration, distance, title, clicks, elevationGain, speed) =>
      Record("cycling", id, date, coords, duration, distance, title, clicks, elevationGain, speed)
  }

  /** The variant chosen by the record's tag, every field restored verbatim
      (clicks and the metric are not recomputed). */
  function FromRecord(r: Record): (w: Option<Workout>)
    ensures w.Some? <==> Recognised(r)
    ensures w.Some? ==> TypeName(w.value.Type()) == r.tag
  {
    if r.tag == "running" then
      Some(Running(r.id, r.date, r.coords, r.duration, r.distance, r.title, r.clicks, r.variantField, r.metric))
    else if r.tag == "cycling" then
      Some(Cycling(r.id, r.date, r.coords, r.duration, r.distance, r.title, r.clicks, r.variantField, r.metric))
    else None
  }

  /** Reconstruction loses nothing a record carries. */
  lemma RecordRoundTrip(r: Record)
    requires Recognised(r)
    ensures ToRecord(FromRecord(r).value) == r
  {
  }

  /** The whole-log write of `_setLocalStorage`: one record per workout, in log order. */
  function Save(log: seq<Workout>): (rs: seq<Record>)
    ensures |rs| == |log|
    ensures forall i :: 0 <= i < |log| ==> FromRecord(rs[i]) == Some(log[i])
  {
    seq(|log|, i requires 0 <= i < |log| => ToRecord(log[i]))
  }

  /** Reconstruction of the stored array: recognised records become their
      variant, in stored order; a record with any other tag is skipped. */
  function Load(rs: seq<Record>): (log: seq<Workout>)
    ensures |log| <= |rs|
    ensures (forall i :: 0 <= i < |rs| ==> Recognised(rs[i])) ==>
              |log| == |rs| && forall i :: 0 <= i < |rs| ==> Some(log[i]) == FromRecord(rs[i])
  {
    if |rs| == 0 then []
    else match FromRecord(rs[0])
      case Some(w) => [w] + Load(rs[1..])
      case None => Load(rs[1..])
  }

  /** Loading distributes over concatenation: order is kept, records load independently. */
  lemma {:induction false} LoadAppend(a: seq<Record>, b: seq<Record>)
    ensures Load(a + b) == Load(a) + Load(b)
  {
    if |a| > 0 {
      assert (a + b)[0] == a[0];
      assert (a + b)[1..] == a[1..] + b;
      LoadAppend(a[1..], b);
    } else {
      assert a + b == b;
    }
  }

  lemma LoadUnknownAlone(r: Record)
    requires !Recognised(r)
    ensures Load([r]) == []
  {
    assert [r][1..] == [];
  }

  /** A record with an unknown tag is dropped without disturbing the records around it. */
  lemma SkipUnknown(before: seq<Record>, r: Record, after: seq<Record>)
    requires !Recognised(r)
    ensures Load(before + [r] + after) == Load(before) + Load(after)
  {
    LoadAppend(before + [r], after);
    LoadAppend(before, [r]);
    LoadUnknownAlone(r);
    assert Load(before) + [] == Load(before);
  }

  /** Loading what was saved gives back the same log, clicks and metrics included. */
  lemma {:induction false} LoadSaveRoundTrip(log: seq<Workout>)
    ensures Load(Save(log)) == log
  {
    if |log| > 0 {
      assert Save(log) == [ToRecord(log[0])] + Save(log[1..]);
      LoadAppend([ToRecord(log[0])], Save(log[1..]));
      assert [ToRecord(log[0])][1..] == [];
      LoadSaveRoundTrip(log[1..]);
    }
  }

  // ----- Reconstruction as the source writes it -----

  /** An element of the log after `_getLocalStorage`: a record whose prototype
      was reset to Running or Cycling, or a plain object left as parsed. */
  datatype Restored = Typed(w: Workout) | Plain(r: Record)

  /** The `workouts.map` of `_getLocalStorage`: an unknown tag leaves the
      record in the log as a plain object without the workout methods. */
  function LoadAsWritten(rs: seq<Record>): (log: seq<Restored>)
    ensures |log| == |rs|
    ensures forall i :: 0 <= i < |rs| ==>
      && (log[i].Typed? <==> Recognised(rs[i]))
      && (log[i].Typed? ==> TypeName(log[i].w.Type()) == rs[i].tag && ToRecord(log[i].w) == rs[i])
      && (log[i].Plain? ==> log[i].r == rs[i])
  {
    seq(|rs|, i requires 0 <= i < |rs| =>
      match FromRecord(rs[i])
      case Some(w) => Typed(w)
      case None => Plain(rs[i]))
  }

  /** A stored `swimming` record beside a running one: the source keeps two
      entries, the second of which cannot be clicked; Load keeps only the run. */
  lemma UnknownTagKeptAsWritten(run: Record, swim: Record)
    requires run.tag == "running" && swim.tag == "swimming"
    ensures |LoadAsWritten([run, swim])| == 2 && LoadAsWritten([run, swim])[1] == Plain(swim)
    ensures Load([run, swim]) == [FromRecord(run).value]
  {
    assert [run, swim][1..] == [swim];
    assert [swim][1..] == [];
  }
}
