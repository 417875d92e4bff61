/**
 * The program-detail panel of the dashboard: the numbers it proposes for a
 * new week, day and exercise, its fallbacks for empty fields, the
 * normalisation of the exercise form, which exercise details it fetches,
 * and how it names an exercise. Requests go out as returned values; the
 * panel's `Number(...)` parsing is a supplied function where None stands
 * for NaN.
 */
module ProgramDetail {
  import opened Common
  import opened ProgramModels

  // ---------------------------------------------------------------- requests

  datatype WeekRequest = WeekRequest(programId: int, weekNumber: int)
  /**
   * A number bound with `ngModel` to a `type="number"` input: unset (the
   * form is `{}`), `null` once the input is cleared or holds no number, or a number.
   */
  datatype NumberField = Unset | Cleared | Num(n: int)

  datatype DayRequest = DayRequest(programWeekId: int, dayNumber: NumberField, title: string, notes: string)
  datatype ExerciseRequest = ExerciseRequest(
    programDayId: int, exerciseId: int, orderIndex: int,
    sets: string, reps: string, restSeconds: int, tempo: string,
    percent1RM: Option<int>, notes: string, videoUrl: string, exerciseDataJson: string)

  /** The day form: every field may be unset (`{}` after a cancel). */
  datatype DayForm = DayForm(dayNumber: NumberField, title: Option<string>, notes: Option<string>)

  const EmptyDayForm := DayForm(Unset, None, None)

  /** The exercise form's fields as typed; `percent1RM` is null until set. */
  datatype ExerciseForm = ExerciseForm(
    sets: string, reps: string, restSeconds: string, tempo: string,
    percent1RM: Option<string>, notes: string, videoUrl: string, exerciseDataJson: string)

  /** `{ sets: '3', reps: '12', restSeconds: 60, … }` with the given video URL. */
  function DefaultExerciseForm(videoUrl: string): (f: ExerciseForm)
    ensures f.sets == "3" && f.reps == "12" && f.restSeconds == "60" && f.percent1RM.None?
    ensures f.videoUrl == videoUrl && f.tempo == "" && f.notes == "" && f.exerciseDataJson == ""
  {
    ExerciseForm("3", "12", "60", "", None, "", videoUrl, "")
  }

  /** A cached exercise from the library, as far as the panel reads it. */
  datatype Exercise = Exercise(id: int, name: string, thumbnailUrl: Option<string>, videoDemoUrl: Option<string>, videoUrl: Option<string>)

  // ---------------------------------------------------------------- numbering

  /** The number after the last of `n` items: `(xs?.length || 0) + 1`. */
  function NextNumber<T>(xs: Option<seq<T>>): (n: int)
    ensures n == |OrEmpty(xs)| + 1
    ensures xs.None? ==> n == 1
  {
    |OrEmpty(xs)| + 1
  }

  /** In weeks numbered 1, 2, … the proposed number is new. */
  lemma NextWeekNumberIsNew(p: Program)
    requires forall i :: 0 <= i < |OrEmpty(p.weeks)| ==> OrEmpty(p.weeks)[i].weekNumber == i + 1
    ensures forall i :: 0 <= i < |OrEmpty(p.weeks)| ==> OrEmpty(p.weeks)[i].weekNumber != NextNumber(p.weeks)
  {
  }

  /** `${dayNumber}`: the number's digits, `null` for a cleared input, `undefined` when unset. */
  function DayNumberText(n: NumberField): string
  {
    match n
    case Num(k) => IntToString(k)
    case Cleared => "null"
    case Unset => "undefined"
  }

  /** `this.dayForm.title || `Day ${dayNumber}``: never empty. */
  function DayTitle(form: DayForm): (t: string)
    ensures PresentText(form.title) ==> t == form.title.value
    ensures !PresentText(form.title) ==> t == "Day " + DayNumberText(form.dayNumber)
    ensures t != ""
  {
    OrText(form.title, "Day " + DayNumberText(form.dayNumber))
  }

  /** With the title left blank, a cleared Day-No input gives the title `Day null`. */
  lemma ClearedDayNumberTitle(title: Option<string>, notes: Option<string>)
    requires !PresentText(title)
    ensures DayTitle(DayForm(Cleared, title, notes)) == "Day null"
  {
  }

  // ---------------------------------------------------------------- normalisation

  /** `Number(x) || 0`: NaN and 0 both become 0. */
  function NumberOrZero(parsed: Option<int>): (n: int)
    ensures parsed.Some? ==> n == parsed.value
    ensures parsed.None? ==> n == 0
  {
    if parsed.Some? then parsed.value else 0
  }

  /** `Math.max(lo, Math.min(hi, x))` */
  function Clamp(x: int, lo: int, hi: int): (r: int)
    requires lo <= hi
    ensures lo <= r <= hi
    ensures lo <= x <= hi ==> r == x
    ensures x < lo ==> r == lo
    ensures x > hi ==> r == hi
  {
    if x < lo then lo else if x > hi then hi else x
  }

  /**
   * The %1RM sent: none when the field is null or not a number, otherwise
   * the number clamped to 0..100.
   */
  function Percent1RM(field: Option<string>, toNumber: string -> Option<int>): (r: Option<int>)
    ensures field.None? ==> r.None?
    ensures field.Some? && toNumber(field.value).None? ==> r.None?
    ensures r.Some? ==> 0 <= r.value <= 100
    ensures field.Some? && toNumber(field.value).Some? && 0 <= toNumber(field.value).value <= 100 ==>
      r == toNumber(field.value)
  {
    if field.None? then None
    else if toNumber(field.value).None? then None
    else Some(Clamp(toNumber(field.value).value, 0, 100))
  }

  /** Normalising a %1RM already in range changes nothing, so a second pass is harmless. */
  lemma ClampIdempotent(x: int)
    ensures Clamp(Clamp(x, 0, 100), 0, 100) == Clamp(x, 0, 100)
  {
  }

  // ---------------------------------------------------------------- exercise ids

  /** The exercise ids of some days, day by day, in order. */
  function DayExerciseIds(days: seq<ProgramDay>): seq<int>
    decreases |days|
  {
    if days == [] then []
    else
      var exs := OrEmpty(days[0].exercises);
      seq(|exs|, i requires 0 <= i < |exs| => exs[i].exerciseId) + DayExerciseIds(days[1..])
  }

  /** The exercise ids of some weeks, week by week, in order. */
  function WeekExerciseIds(weeks: seq<ProgramWeek>): seq<int>
    decreases |weeks|
  {
    if weeks == [] then []
    else DayExerciseIds(OrEmpty(weeks[0].days)) + WeekExerciseIds(weeks[1..])
  }

  /** Every exercise id of a program, in the order the nested `forEach` visits them. */
  function ExerciseIds(p: Program): seq<int>
  {
    WeekExerciseIds(OrEmpty(p.weeks))
  }

  lemma {:induction false} DayExerciseIdsHas(days: seq<ProgramDay>, d: nat, e: nat)
    requires d < |days| && e < |OrEmpty(days[d].exercises)|
    ensures OrEmpty(days[d].exercises)[e].exerciseId in DayExerciseIds(days)
    decreases |days|
  {
    var exs := OrEmpty(days[0].exercises);
    var head := seq(|exs|, i requires 0 <= i < |exs| => exs[i].exerciseId);
    if d == 0 {
      assert head[e] == exs[e].exerciseId;
      assert DayExerciseIds(days)[e] == head[e];
    } else {
      DayExerciseIdsHas(days[1..], d - 1, e);
      assert days[1..][d - 1] == days[d];
    }
  }

  /** Each exercise of each day of each week contributes its id. */
  lemma {:induction false} WeekExerciseIdsHas(weeks: seq<ProgramWeek>, w: nat, d: nat, e: nat)
    requires w < |weeks| && d < |OrEmpty(weeks[w].days)| && e < |OrEmpty(OrEmpty(weeks[w].days)[d].exercises)|
    ensures OrEmpty(OrEmpty(weeks[w].days)[d].exercises)[e].exerciseId in WeekExerciseIds(weeks)
    decreases |weeks|
  {
    if w == 0 {
      DayExerciseIdsHas(OrEmpty(weeks[0].days), d, e);
    } else {
      WeekExerciseIdsHas(weeks[1..], w - 1, d, e);
      assert weeks[1..][w - 1] == weeks[w];
    }
  }

  /** No value occurs twice. */
  predicate Distinct(xs: seq<int>)
  {
    forall i, j :: 0 <= i < j < |xs| ==> xs[i] != xs[j]
  }

  // ---------------------------------------------------------------- the panel

  const UnknownExercise := "Unknown Exercise"

  class ProgramDetailPage {
    var program: Option<Program>
    var addingToDay: Option<ProgramDay>
    var creatingDayForWeek: Option<ProgramWeek>
    var dayForm: DayForm
    var selectedExerciseToAdd: Option<Exercise>
    var addExerciseForm: ExerciseForm
    var exerciseCache: map<int, Exercise>

    constructor ()
      ensures program.None? && addingToDay.None? && creatingDayForWeek.None? && selectedExerciseToAdd.None?
      ensures dayForm == EmptyDayForm && addExerciseForm == DefaultExerciseForm("") && exerciseCache == map[]
    {
      program := None;
      addingToDay := None;
      creatingDayForWeek := None;
      dayForm := EmptyDayForm;
      selectedExerciseToAdd := None;
      addExerciseForm := DefaultExerciseForm("");
      exerciseCache := map[];
    }

    /** The selected program arrives: it is shown and its exercise details are fetched. */
    method OnProgramSelected(p: Option<Program>) returns (fetch: seq<int>)
      modifies this`program
      ensures program == p
      ensures p.None? ==> fetch == []
      ensures p.Some? ==> forall id :: id in fetch <==> id != 0 && id in ExerciseIds(p.value) && id !in exerciseCache
      ensures Distinct(fetch)
    {
      program := p;
      fetch := PrefetchExercises();
    }

    /** `addWeek`: nothing without a program id, else the next week number. */
    method AddWeek() returns (req: Option<WeekRequest>)
      ensures (program.None? || program.value.id == 0) ==> req.None?
      ensures program.Some? && program.value.id != 0 ==>
        req == Some(WeekRequest(program.value.id, |OrEmpty(program.value.weeks)| + 1))
    {
      if program.None? || program.value.id == 0 {
        return None;
      }
      return Some(WeekRequest(program.value.id, NextNumber(program.value.weeks)));
    }

    /** `openCreateDay`: for a week with an id, the form is pre-filled with the next day. */
    method OpenCreateDay(w: ProgramWeek)
      modifies this`creatingDayForWeek, this`dayForm
      ensures w.id == 0 ==> creatingDayForWeek == old(creatingDayForWeek) && dayForm == old(dayForm)
      ensures w.id != 0 ==>
        creatingDayForWeek == Some(w) &&
        dayForm == DayForm(Num(|OrEmpty(w.days)| + 1), Some("Day " + IntToString(|OrEmpty(w.days)| + 1)), Some(""))
    {
      if w.id == 0 {
        return;
      }
      var next := NextNumber(w.days);
      creatingDayForWeek := Some(w);
      dayForm := DayForm(Num(next), Some("Day " + IntToString(next)), Some(""));
    }

    /** The Day-No input changes: `ngModel` writes the number, or `null` when the input holds none. */
    method OnDayNumberInput(v: Option<int>)
      modifies this`dayForm
      ensures dayForm == old(dayForm).(dayNumber := if v.Some? then Num(v.value) else Cleared)
    {
      dayForm := dayForm.(dayNumber := if v.Some? then Num(v.value) else Cleared);
    }

    method CancelCreateDay()
      modifies this`creatingDayForWeek, this`dayForm
      ensures creatingDayForWeek.None? && dayForm == EmptyDayForm
    {
      creatingDayForWeek := None;
      dayForm := EmptyDayForm;
    }

    /** `createDaySubmit`: the request with the title and notes fallbacks. */
    method CreateDaySubmit() returns (req: Option<DayRequest>)
      ensures (creatingDayForWeek.None? || creatingDayForWeek.value.id == 0) ==> req.None?
      ensures creatingDayForWeek.Some? && creatingDayForWeek.value.id != 0 ==>
        req.Some? && req.value.programWeekId == creatingDayForWeek.value.id &&
        req.value.dayNumber == dayForm.dayNumber &&
        req.value.title == DayTitle(dayForm) && req.value.notes == OrText(dayForm.notes, "")
    {
      if creatingDayForWeek.None? || creatingDayForWeek.value.id == 0 {
        return None;
      }
      return Some(DayRequest(creatingDayForWeek.value.id, dayForm.dayNumber, DayTitle(dayForm), OrText(dayForm.notes, "")));
    }

    method OpenAddExercise(d: ProgramDay)
      modifies this`addingToDay
      ensures addingToDay == Some(d)
    {
      addingToDay := Some(d);
    }

    /** `prepareAddExercise`: the form starts over, with the exercise's demo video if it has one. */
    method PrepareAddExercise(ex: Exercise)
      modifies this`selectedExerciseToAdd, this`addExerciseForm
      ensures selectedExerciseToAdd == Some(ex)
      ensures addExerciseForm == DefaultExerciseForm(OrText(ex.videoDemoUrl, OrText(ex.videoUrl, "")))
    {
      selectedExerciseToAdd := Some(ex);
      addExerciseForm := DefaultExerciseForm(OrText(ex.videoDemoUrl, OrText(ex.videoUrl, "")));
    }

    /**
     * `submitAddExercise`: nothing without a target day with an id and a
     * chosen exercise; otherwise the next order index, sets, reps and rest
     * as numbers (0 where `Number` gives NaN or 0), and
     * the clamped %1RM.
     */
    method SubmitAddExercise(toNumber: string -> Option<int>) returns (req: Option<ExerciseRequest>)
      ensures (addingToDay.None? || addingToDay.value.id == 0 || selectedExerciseToAdd.None?) ==> req.None?
      ensures addingToDay.Some? && addingToDay.value.id != 0 && selectedExerciseToAdd.Some? ==>
        req.Some? &&
        req.value.programDayId == addingToDay.value.id &&
        req.value.exerciseId == selectedExerciseToAdd.value.id &&
        req.value.orderIndex == |OrEmpty(addingToDay.value.exercises)| + 1 &&
        req.value.sets == IntToString(NumberOrZero(toNumber(addExerciseForm.sets))) &&
        req.value.reps == IntToString(NumberOrZero(toNumber(addExerciseForm.reps))) &&
        req.value.restSeconds == NumberOrZero(toNumber(addExerciseForm.restSeconds)) &&
        req.value.percent1RM == Percent1RM(addExerciseForm.percent1RM, toNumber) &&
        req.value.tempo == addExerciseForm.tempo && req.value.notes == addExerciseForm.notes &&
        req.value.videoUrl == addExerciseForm.videoUrl &&
        req.value.exerciseDataJson == addExerciseForm.exerciseDataJson
    {
      if addingToDay.None? || addingToDay.value.id == 0 || selectedExerciseToAdd.None? {
        return None;
      }
      var order := NextNumber(addingToDay.value.exercises);
      var setsNum := NumberOrZero(toNumber(addExerciseForm.sets));
      var repsNum := NumberOrZero(toNumber(addExerciseForm.reps));
      var restSecNum := NumberOrZero(toNumber(addExerciseForm.restSeconds));
      var percentNum := Percent1RM(addExerciseForm.percent1RM, toNumber);
      var f := addExerciseForm;
      return Some(ExerciseRequest(addingToDay.value.id, selectedExerciseToAdd.value.id, order,
        IntToString(setsNum), IntToString(repsNum), restSecNum, f.tempo, percentNum,
        f.notes, f.videoUrl, f.exerciseDataJson));
    }

    /**
     * `prefetchExercises`: the ids to fetch, each a truthy exercise id of the
     * program that is not cached yet, each once; nothing without a program.
     */
    method PrefetchExercises() returns (fetch: seq<int>)
      ensures program.None? ==> fetch == []
      ensures program.Some? ==> forall id :: id in fetch <==>
        id != 0 && id in ExerciseIds(program.value) && id !in exerciseCache
      ensures Distinct(fetch)
    {
      if program.None? {
        return [];
      }
      var all := ExerciseIds(program.value);
      var ids: seq<int> := [];
      var k := 0;
      while k < |all|
        invariant 0 <= k <= |all|
        invariant forall id :: id in ids <==> id != 0 && id in all[..k]
        invariant Distinct(ids)
      {
        assert all[..k + 1] == all[..k] + [all[k]];
        if all[k] != 0 && all[k] !in ids {
          ids := ids + [all[k]];
        }
        k := k + 1;
      }
      assert all[..k] == all;
      fetch := [];
      k := 0;
      while k < |ids|
        invariant 0 <= k <= |ids|
        invariant forall id :: id in fetch <==> id in ids[..k] && id !in exerciseCache
        invariant Distinct(fetch)
      {
        assert ids[..k + 1] == ids[..k] + [ids[k]];
        if ids[k] !in exerciseCache {
          assert ids[k] !in ids[..k];
          fetch := fetch + [ids[k]];
        }
        k := k + 1;
      }
      assert ids[..k] == ids;
    }

    /** A fetched exercise is cached under its id. */
    method OnExerciseFetched(id: int, ex: Exercise)
      modifies this`exerciseCache
      ensures exerciseCache == old(exerciseCache)[id := ex]
    {
      exerciseCache := exerciseCache[id := ex];
    }

    /** `resolveExerciseName`: never empty. */
    function ResolveExerciseName(id: Option<int>): (name: string)
      reads this
      ensures (id.None? || id.value == 0) ==> name == UnknownExercise
      ensures id.Some? && id.value != 0 && id.value in exerciseCache && exerciseCache[id.value].name != "" ==>
        name == exerciseCache[id.value].name
      ensures id.Some? && id.value != 0 && !(id.value in exerciseCache && exerciseCache[id.value].name != "") ==>
        name == "Exercise " + IntToString(id.value)
      ensures name != ""
    {
      if id.None? || id.value == 0 then UnknownExercise
      else if id.value in exerciseCache && exerciseCache[id.value].name != "" then exerciseCache[id.value].name
      else "Exercise " + IntToString(id.value)
    }

    /** `resolveExerciseThumbnail`: the cached thumbnail, or the empty text. */
    function ResolveExerciseThumbnail(id: Option<int>): (url: string)
      reads this
      ensures (id.None? || id.value == 0 || id.value !in exerciseCache) ==> url == ""
      ensures id.Some? && id.value != 0 && id.value in exerciseCache ==>
        url == OrText(exerciseCache[id.value].thumbnailUrl, "")
    {
      if id.None? || id.value == 0 || id.value !in exerciseCache then ""
      else OrText(exerciseCache[id.value].thumbnailUrl, "")
    }
  }
}
