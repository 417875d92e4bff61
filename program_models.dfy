/**
 * The program hierarchy of the trainer dashboard: a program has weeks, a week
 * has days, a day has exercises. Each child records its parent's id. Optional
 * collections (`weeks?`, `days?`, `exercises?`) stay optional.
 */
module ProgramModels {
  import opened Common

  datatype DayExercise = DayExercise(
    id: int,
    programDayId: int,
    exerciseId: int,
    orderIndex: int,
    sets: Option<string>,
    reps: Option<string>,
    restSeconds: Option<int>,
    tempo: Option<string>,
    notes: Option<string>,
    videoUrl: Option<string>)

  datatype ProgramDay = ProgramDay(
    id: int,
    programWeekId: int,
    dayNumber: int,
    title: Option<string>,
    notes: Option<string>,
    exercises: Option<seq<DayExercise>>)

  datatype ProgramWeek = ProgramWeek(id: int, programId: int, weekNumber: int, days: Option<seq<ProgramDay>>)

  datatype Program = Program(
    id: int,
    title: string,
    description: string,
    kind: int,
    durationWeeks: int,
    isPublic: bool,
    trainerProfileId: Option<int>,
    weeks: Option<seq<ProgramWeek>>)

  /** `xs || []` */
  function OrEmpty<T>(xs: Option<seq<T>>): seq<T>
  {
    if xs.Some? then xs.value else []
  }
}
