/**
 * The program modal: which program it loads, which week and which day are
 * expanded (one of each at most, independently), and the label and icon
 * of a program type.
 */
module ProgramDetailModal {
  import opened Common
  import opened ProgramModels

  /** `expanded = expanded === id ? null : id` */
  function ToggleId(expanded: Option<int>, id: int): (r: Option<int>)
    ensures forall x :: r == Some(x) <==> x == id && expanded != Some(id)
  {
    if expanded == Some(id) then None else Some(id)
  }

  /** Toggling twice restores the state when nothing, or that same item, was expanded. */
  lemma ToggleTwice(expanded: Option<int>, id: int)
    requires expanded.None? || expanded == Some(id)
    ensures ToggleId(ToggleId(expanded, id), id) == expanded
  {
  }

  /** `getProgramTypeLabel`: the four known types by name, anything else `Program`. */
  function ProgramTypeLabel(kind: int): (name: string)
    ensures kind == 1 ==> name == "Workout"
    ensures kind == 2 ==> name == "Nutrition"
    ensures kind == 3 ==> name == "Hybrid"
    ensures kind == 4 ==> name == "Challenge"
    ensures name == "Program" <==> !(1 <= kind <= 4)
  {
    if kind == 1 then "Workout"
    else if kind == 2 then "Nutrition"
    else if kind == 3 then "Hybrid"
    else if kind == 4 then "Challenge"
    else "Program"
  }

  /** `getProgramTypeIcon`: the four known types by icon, anything else `bi-diagram-3`. */
  function ProgramTypeIcon(kind: int): (icon: string)
    ensures kind == 1 ==> icon == "bi-dumbbell"
    ensures kind == 2 ==> icon == "bi-apple"
    ensures kind == 3 ==> icon == "bi-shuffle"
    ensures kind == 4 ==> icon == "bi-lightning"
    ensures icon == "bi-diagram-3" <==> !(1 <= kind <= 4)
  {
    if kind == 1 then "bi-dumbbell"
    else if kind == 2 then "bi-apple"
    else if kind == 3 then "bi-shuffle"
    else if kind == 4 then "bi-lightning"
    else "bi-diagram-3"
  }

  /** Label and icon tell the known types apart: two types share a label exactly when they share an icon. */
  lemma LabelAndIconAgree(a: int, b: int)
    ensures ProgramTypeLabel(a) == ProgramTypeLabel(b) <==> ProgramTypeIcon(a) == ProgramTypeIcon(b)
  {
  }

  /** `ngOnChanges` loads only when open with a truthy program id. */
  predicate ShouldLoad(isOpen: bool, programId: Option<int>)
    ensures !isOpen || programId.None? || programId == Some(0) ==> !ShouldLoad(isOpen, programId)
    ensures ShouldLoad(isOpen, programId) ==> programId.Some? && programId.value != 0
  {
    isOpen && programId.Some? && programId.value != 0
  }

  class ProgramDetailModalState {
    var isOpen: bool
    var programId: Option<int>
    var program: Option<Program>
    var isLoading: bool
    var expandedWeek: Option<int>
    var expandedDay: Option<int>

    constructor ()
      ensures !isOpen && programId.None? && program.None? && !isLoading
      ensures expandedWeek.None? && expandedDay.None?
    {
      isOpen := false;
      programId := None;
      program := None;
      isLoading := false;
      expandedWeek := None;
      expandedDay := None;
    }

    /** `ngOnChanges`: the id whose details are requested, if any. */
    method OnChanges() returns (load: Option<int>)
      modifies this`isLoading
      ensures ShouldLoad(isOpen, programId) ==> load == programId && isLoading
      ensures !ShouldLoad(isOpen, programId) ==> load.None? && isLoading == old(isLoading)
    {
      if ShouldLoad(isOpen, programId) {
        isLoading := true;
        return programId;
      }
      return None;
    }

    method OnProgramLoaded(p: Program)
      modifies this`program, this`isLoading
      ensures program == Some(p) && !isLoading
    {
      program := Some(p);
      isLoading := false;
    }

    method OnProgramFailed()
      modifies this`isLoading
      ensures !isLoading
    {
      isLoading := false;
    }

    /** `isWeekExpanded`: true for the one expanded week only. */
    predicate IsWeekExpanded(weekId: int)
      reads this
      ensures expandedWeek.None? ==> !IsWeekExpanded(weekId)
      ensures IsWeekExpanded(weekId) ==> expandedWeek.Some? && expandedWeek.value == weekId
    {
      expandedWeek == Some(weekId)
    }

    /** `isDayExpanded`: true for the one expanded day only. */
    predicate IsDayExpanded(dayId: int)
      reads this
      ensures expandedDay.None? ==> !IsDayExpanded(dayId)
      ensures IsDayExpanded(dayId) ==> expandedDay.Some? && expandedDay.value == dayId
    {
      expandedDay == Some(dayId)
    }

    /** `toggleWeek`: that week flips, every other week is collapsed, days are untouched. */
    method ToggleWeek(weekId: int)
      modifies this`expandedWeek
      ensures expandedWeek == ToggleId(old(expandedWeek), weekId)
      ensures IsWeekExpanded(weekId) <==> !old(IsWeekExpanded(weekId))
      ensures forall w :: w != weekId ==> !IsWeekExpanded(w)
    {
      expandedWeek := ToggleId(expandedWeek, weekId);
    }

    /** `toggleDay`: that day flips, every other day is collapsed, weeks are untouched. */
    method ToggleDay(dayId: int)
      modifies this`expandedDay
      ensures expandedDay == ToggleId(old(expandedDay), dayId)
      ensures IsDayExpanded(dayId) <==> !old(IsDayExpanded(dayId))
      ensures forall d :: d != dayId ==> !IsDayExpanded(d)
    {
      expandedDay := ToggleId(expandedDay, dayId);
    }
  }
}
