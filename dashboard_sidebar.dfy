/**
 * The dashboard's program list: expanding a program (fetching its weeks
 * when the list entry has none), expanding a week, and writing a fetched
 * program back into the list in place.
 */
module DashboardSidebar {
  import opened Common
  import opened ProgramModels
  import opened ProgramDetailModal

  /** `findIndex(p => p.id === id)` from position `k`, None for -1. */
  function FirstIndexFrom(s: seq<Program>, id: int, k: nat): (r: Option<nat>)
    decreases |s| - k
    ensures r.Some? ==> k <= r.value < |s| && s[r.value].id == id
    ensures r.Some? ==> forall j :: k <= j < r.value ==> s[j].id != id
    ensures r.None? ==> forall j :: k <= j < |s| ==> s[j].id != id
  {
    if k >= |s| then None
    else if s[k].id == id then Some(k)
    else FirstIndexFrom(s, id, k + 1)
  }

  /** The first position holding the program `id`. */
  function FirstIndex(s: seq<Program>, id: int): Option<nat>
  {
    FirstIndexFrom(s, id, 0)
  }

  /** Whether expanding `id` has to fetch its details: no entry, or an entry without `weeks`. */
  predicate NeedsDetails(s: seq<Program>, id: int)
  {
    FirstIndex(s, id).None? || s[FirstIndex(s, id).value].weeks.None?
  }

  class DashboardSidebarState {
    var programs: array<Program>
    var expandedProgram: Option<int>
    var expandedWeek: Option<int>

    constructor (initial: array<Program>)
      ensures programs == initial && expandedProgram.None? && expandedWeek.None?
    {
      programs := initial;
      expandedProgram := None;
      expandedWeek := None;
    }

    /** `findIndex` over the list. */
    method FindIndex(id: int) returns (index: Option<nat>)
      ensures index == FirstIndex(programs[..], id)
    {
      var k := 0;
      while k < programs.Length
        invariant 0 <= k <= programs.Length
        invariant forall j :: 0 <= j < k ==> programs[j].id != id
      {
        if programs[k].id == id {
          return Some(k);
        }
        k := k + 1;
      }
      return None;
    }

    /**
     * `toggleProgram`: a falsy id changes nothing; the expanded program
     * collapses; another program is expanded, and its details are
     * requested when the list holds no weeks for it.
     */
    method ToggleProgram(programId: Option<int>) returns (load: Option<int>)
      modifies this`expandedProgram
      ensures (programId.None? || programId.value == 0) ==> expandedProgram == old(expandedProgram) && load.None?
      ensures programId.Some? && programId.value != 0 && old(expandedProgram) == programId ==>
        expandedProgram.None? && load.None?
      ensures programId.Some? && programId.value != 0 && old(expandedProgram) != programId ==>
        expandedProgram == programId &&
        (load.Some? <==> NeedsDetails(programs[..], programId.value)) &&
        (load.Some? ==> load == programId)
    {
      if programId.None? || programId.value == 0 {
        return None;
      }
      if expandedProgram == programId {
        expandedProgram := None;
        return None;
      }
      expandedProgram := programId;
      var index := FindIndex(programId.value);
      if index.None? || programs[index.value].weeks.None? {
        return programId;
      }
      return None;
    }

    /** `toggleWeek`: a falsy id changes nothing, otherwise that week flips; programs are untouched. */
    method ToggleWeek(weekId: Option<int>)
      modifies this`expandedWeek
      ensures (weekId.None? || weekId.value == 0) ==> expandedWeek == old(expandedWeek)
      ensures weekId.Some? && weekId.value != 0 ==> expandedWeek == ToggleId(old(expandedWeek), weekId.value)
    {
      if weekId.None? || weekId.value == 0 {
        return;
      }
      expandedWeek := ToggleId(expandedWeek, weekId.value);
    }

    /** `loadProgramDetails` answered: the first entry with that id is replaced, nothing else. */
    method OnProgramDetailsLoaded(programId: int, program: Program)
      modifies programs
      ensures FirstIndex(old(programs[..]), programId).None? ==> programs[..] == old(programs[..])
      ensures FirstIndex(old(programs[..]), programId).Some? ==>
        programs[..] == old(programs[..])[FirstIndex(old(programs[..]), programId).value := program]
    {
      var index := FindIndex(programId);
      if index.Some? {
        programs[index.value] := program;
      }
    }
  }

  /** After the write-back, expanding that program again needs no fetch when the details have weeks. */
  lemma LoadedProgramNeedsNoFetch(s: seq<Program>, i: nat, program: Program)
    requires FirstIndex(s, program.id) == Some(i) && program.weeks.Some?
    ensures !NeedsDetails(s[i := program], program.id)
  {
    var t := s[i := program];
    assert forall j :: 0 <= j < i ==> t[j].id != program.id;
    assert t[i].id == program.id;
  }
}
