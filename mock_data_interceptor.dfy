/**
 * The development interceptor that answers trainer-profile and
 * program-detail requests from fixed data and hands every other request on.
 */
module MockDataInterceptor {
  import opened Common
  import opened Http
  import opened TrainerService
  import opened ProgramModels

  const ProfileByIdPath := "/api/trainer/TrainerProfile/Id/"
  const ProfileByUserIdPath := "/api/trainer/TrainerProfile/UserId/"
  const ProgramsPath := "/api/trainer/Programs/"

  /** `mockTrainerProfile` (its suspension fields are not part of the profile type). */
  const MockTrainerProfile := TrainerProfileResponse(
    3, Some("2024-12-28T15:30:00Z"), "2024-01-10T08:00:00Z", "user_1", "coach_ahmed", "@coachahmed",
    "Certified personal trainer with 10+ years experience. Specialized in strength training and body transformation.",
    Some("https://images.unsplash.com/photo-1534438327276-14e5300c3a48?w=500&h=300&fit=crop"),
    Some("https://www.youtube.com/embed/dQw4w9WgXcQ"),
    Some("#FF6B35,#004E89"),
    true, Some("2024-02-01T10:00:00Z"), 4.8, 156, 10,
    Some("https://images.unsplash.com/photo-1517836357463-d25ddfcbf042?w=500&h=300&fit=crop"),
    Some("Currently accepting new clients! Limited spots available for December. Book your consultation now!"))

  const Video := Some("https://www.youtube.com/embed/dQw4w9WgXcQ")

  const Week1Days := [
    ProgramDay(25, 10, 1, Some("Upper Body Push"), Some("Focus on form over weight"), Some([
      DayExercise(100, 25, 15, 1, Some("4"), Some("8-12"), Some(90), Some("3010"), Some("Control the eccentric"), Video),
      DayExercise(101, 25, 16, 2, Some("4"), Some("6-10"), Some(120), Some("2010"), Some("Full range of motion"), Video)])),
    ProgramDay(26, 10, 2, Some("Rest Day"), Some("Active recovery recommended"), Some([])),
    ProgramDay(27, 10, 3, Some("Lower Body Strength"), Some("Heavy focus on compound lifts"), Some([
      DayExercise(102, 27, 17, 1, Some("5"), Some("3-5"), Some(180), Some("2010"), Some("Max effort day"), Video)]))]

  const Week2Days := [
    ProgramDay(28, 11, 1, Some("Upper Body Pull"), Some("Focus on back development"), Some([])),
    ProgramDay(29, 11, 2, Some("Cardio & Core"), Some("Light intensity conditioning"), Some([]))]

  /**
   * `mockProgram`, with the fields the program model keeps. Left out: the
   * decimal price, RPE and %1RM figures, and `maxClients`, `thumbnailUrl`,
   * `createdAt`, `updatedAt`, `trainerUserName` and `trainerHandle`.
   */
  const MockProgram := Program(
    5, "Advanced Strength Program",
    "A comprehensive 12-week strength building program designed for intermediate to advanced lifters.",
    1, 12, true, Some(3),
    Some([ProgramWeek(10, 5, 1, Some(Week1Days)), ProgramWeek(11, 5, 2, Some(Week2Days))]))

  /** A day's exercises point back at it and are numbered 1, 2, … in order. */
  predicate DayWellFormed(d: ProgramDay)
  {
    forall i :: 0 <= i < |OrEmpty(d.exercises)| ==>
      OrEmpty(d.exercises)[i].programDayId == d.id && OrEmpty(d.exercises)[i].orderIndex == i + 1
  }

  /** A week's days point back at it, are numbered 1, 2, … and are well formed. */
  predicate WeekWellFormed(w: ProgramWeek)
  {
    forall i :: 0 <= i < |OrEmpty(w.days)| ==>
      OrEmpty(w.days)[i].programWeekId == w.id && OrEmpty(w.days)[i].dayNumber == i + 1 &&
      DayWellFormed(OrEmpty(w.days)[i])
  }

  /** Every child of the program records its parent's id, and the numbering runs from 1. */
  predicate ProgramWellFormed(p: Program)
  {
    forall i :: 0 <= i < |OrEmpty(p.weeks)| ==>
      OrEmpty(p.weeks)[i].programId == p.id && OrEmpty(p.weeks)[i].weekNumber == i + 1 &&
      WeekWellFormed(OrEmpty(p.weeks)[i])
  }

  lemma Week1WellFormed()
    ensures WeekWellFormed(ProgramWeek(10, 5, 1, Some(Week1Days)))
  {
    assert DayWellFormed(Week1Days[0]) by {
      assert OrEmpty(Week1Days[0].exercises)[0].orderIndex == 1;
    }
  }

  /** The fixed program is consistent with its own hierarchy. */
  lemma MockProgramWellFormed()
    ensures ProgramWellFormed(MockProgram)
  {
    Week1WellFormed();
    assert WeekWellFormed(ProgramWeek(11, 5, 2, Some(Week2Days)));
  }

  datatype MockBody = ProfileBody(profile: TrainerProfileResponse) | ProgramBody(program: Program)

  /** A fixed answer, or the request handed on unchanged to `next`. */
  datatype Reply = Respond(status: int, body: MockBody) | Forward(req: Request)

  predicate IsProfileUrl(url: string)
  {
    Contains(url, ProfileByIdPath) || Contains(url, ProfileByUserIdPath)
  }

  predicate IsProgramDetailRequest(req: Request)
  {
    Contains(req.url, ProgramsPath) && req.verb == "GET" &&
    !Contains(req.url, "byTrainer") && !Contains(req.url, "search")
  }

  /**
   * `mockDataInterceptor`: a profile URL gets the profile with any method;
   * a GET for one program gets the program; anything else goes on unchanged.
   */
  function Route(req: Request): (r: Reply)
    ensures IsProfileUrl(req.url) ==> r == Respond(200, ProfileBody(MockTrainerProfile))
    ensures !IsProfileUrl(req.url) && IsProgramDetailRequest(req) ==> r == Respond(200, ProgramBody(MockProgram))
    ensures r.Forward? <==> !IsProfileUrl(req.url) && !IsProgramDetailRequest(req)
    ensures r.Forward? ==> r.req == req
    ensures r.Respond? ==> r.status == 200
  {
    if Contains(req.url, ProfileByIdPath) then Respond(200, ProfileBody(MockTrainerProfile))
    else if Contains(req.url, ProfileByUserIdPath) then Respond(200, ProfileBody(MockTrainerProfile))
    else if IsProgramDetailRequest(req) then Respond(200, ProgramBody(MockProgram))
    else Forward(req)
  }

  /** A request that is not a GET reaches the server unless it is for a profile. */
  lemma NonGetPassesUnlessProfile(req: Request)
    requires req.verb != "GET" && !IsProfileUrl(req.url)
    ensures Route(req) == Forward(req)
  {
  }

  /** Every program the interceptor hands out is well formed. */
  lemma RoutedProgramWellFormed(req: Request)
    ensures Route(req).Respond? && Route(req).body.ProgramBody? ==> ProgramWellFormed(Route(req).body.program)
  {
    MockProgramWellFormed();
  }
}
