/** The home screen's progress tracker: the selected routine, how many times
    it was done today, which days of the 30-day grid are marked, and whether
    the builder sheet is open. */
module Home {
  import opened Routine
  import DayList

  /** The day marked when the daily target is reached. The screen always
      marks the first day of the grid, whatever the date. */
  const MarkedDay: int := 1

  /** Background of a completed cube when no routine colour applies
      (styles.completedCube), and of an incomplete one (styles.incompleteCube). */
  const CompletedColor: string := "orange"
  const IncompleteColor: string := "#444"

  /** The progress part of the screen's state. */
  datatype Progress = Progress(completedTimes: nat, completedDays: seq<int>)

  /** The count never passes the selected routine's target, and is 0 while
      no routine is selected. */
  predicate Bounded(p: Progress, routine: Option<ConfigData>) {
    match routine
    case None => p.completedTimes == 0
    case Some(c) => p.completedTimes <= c.timesPerDay
  }

  /** What one press of the check button (handleTimesCompleted) does to the
      progress of the given routine. */
  function Press(p: Progress, routine: Option<ConfigData>): (q: Progress)
    ensures p.completedTimes <= q.completedTimes <= p.completedTimes + 1
    ensures q.completedDays == p.completedDays || q.completedDays == p.completedDays + [MarkedDay]
  {
    if routine.Some? && p.completedTimes < routine.value.timesPerDay then
      var n := p.completedTimes + 1;
      Progress(n, if n == routine.value.timesPerDay then p.completedDays + [MarkedDay] else p.completedDays)
    else
      p
  }

  /** k presses in a row. */
  function Presses(p: Progress, routine: Option<ConfigData>, k: nat): Progress
    decreases k
  {
    if k == 0 then p else Press(Presses(p, routine, k - 1), routine)
  }

  /** A press does nothing without a routine or once the target is met;
      otherwise it adds exactly one to the count, and appends the marked day
      exactly when the new count meets the target. */
  lemma PressEffect(p: Progress, routine: Option<ConfigData>)
    ensures routine.None? || p.completedTimes >= routine.value.timesPerDay ==> Press(p, routine) == p
    ensures routine.Some? && p.completedTimes < routine.value.timesPerDay ==>
      Press(p, routine).completedTimes == p.completedTimes + 1
    ensures Press(p, routine).completedDays == p.completedDays + [MarkedDay] <==>
      routine.Some? && p.completedTimes + 1 == routine.value.timesPerDay
    ensures Press(p, routine).completedDays != p.completedDays + [MarkedDay] ==>
      Press(p, routine).completedDays == p.completedDays
  {
    assert |p.completedDays + [MarkedDay]| != |p.completedDays|;
  }

  /** A press keeps the count within the target. */
  lemma PressKeepsBound(p: Progress, routine: Option<ConfigData>)
    requires Bounded(p, routine)
    ensures Bounded(Press(p, routine), routine)
  {
  }

  /** From a count of 0, k presses up to the target count k and leave the
      days alone, except that the press reaching the target appends the
      marked day once. */
  lemma {:induction false} PressesFromZero(c: ConfigData, days: seq<int>, k: nat)
    requires k <= c.timesPerDay
    ensures Presses(Progress(0, days), Some(c), k) ==
      Progress(k, if k == c.timesPerDay && k > 0 then days + [MarkedDay] else days)
  {
    if k > 0 {
      PressesFromZero(c, days, k - 1);
    }
  }

  /** Once the target is met, further presses change nothing. */
  lemma {:induction false} PressesAtTarget(c: ConfigData, days: seq<int>, m: nat)
    ensures Presses(Progress(c.timesPerDay, days), Some(c), m) == Progress(c.timesPerDay, days)
  {
    if m > 0 {
      PressesAtTarget(c, days, m - 1);
    }
  }

  lemma {:induction false} PressesSplit(p: Progress, routine: Option<ConfigData>, a: nat, b: nat)
    ensures Presses(p, routine, a + b) == Presses(Presses(p, routine, a), routine, b)
    decreases b
  {
    if b > 0 {
      PressesSplit(p, routine, a, b - 1);
    }
  }

  /** Right after a routine with target t is installed, t presses or more
      give a count of t and a day list holding the marked day once. */
  lemma DailyTarget(c: ConfigData, extra: nat)
    requires c.timesPerDay >= 1
    ensures Presses(Progress(0, []), Some(c), c.timesPerDay + extra) == Progress(c.timesPerDay, [MarkedDay])
  {
    PressesSplit(Progress(0, []), Some(c), c.timesPerDay, extra);
    PressesFromZero(c, [], c.timesPerDay);
    assert [] + [MarkedDay] == [MarkedDay];
    PressesAtTarget(c, [MarkedDay], extra);
  }

  // ---------------------------------------------------------------------------
  // The day cubes.

  /** A rendered cube: its day number, whether it shows as complete, and its
      background colour. */
  datatype Cube = Cube(day: int, complete: bool, color: string)

  /** The outcome of renderDayCube as written: it reads the selected
      routine's colour for a completed day even when no routine is selected,
      which throws. */
  datatype Rendered = Rendered(cube: Cube) | TypeError

  function RenderDayCubeAsWritten(routine: Option<ConfigData>, days: seq<int>, day: int): (r: Rendered)
    ensures r.Rendered? ==> r.cube.day == day && (r.cube.complete <==> day in days)
  {
    if DayList.Includes(days, day) then
      match routine
      case None => TypeError
      case Some(c) => Rendered(Cube(day, true, c.selectedColor))
    else
      Rendered(Cube(day, false, IncompleteColor))
  }

  /** As written, rendering a cube fails exactly when its day is marked and
      no routine is selected. */
  lemma RenderDayCubeAsWrittenFails(routine: Option<ConfigData>, days: seq<int>, day: int)
    ensures RenderDayCubeAsWritten(routine, days, day).TypeError? <==> routine.None? && day in days
  {
  }

  /** renderDayCube as intended: a completed day takes the routine's colour,
      or the completed-cube colour when there is no routine. */
  function RenderDayCube(routine: Option<ConfigData>, days: seq<int>, day: int): (cube: Cube)
    ensures cube.day == day
    ensures cube.complete <==> day in days
    ensures !cube.complete ==> cube.color == IncompleteColor
    ensures cube.complete && routine.Some? ==> cube.color == routine.value.selectedColor
    ensures cube.complete && routine.None? ==> cube.color == CompletedColor
  {
    if DayList.Includes(days, day) then
      Cube(day, true, if routine.Some? then routine.value.selectedColor else CompletedColor)
    else
      Cube(day, false, IncompleteColor)
  }

  /** The corrected rendering agrees with the original wherever the original
      does not throw. */
  lemma RenderDayCubeAgrees(routine: Option<ConfigData>, days: seq<int>, day: int)
    requires RenderDayCubeAsWritten(routine, days, day).Rendered?
    ensures RenderDayCubeAsWritten(routine, days, day).cube == RenderDayCube(routine, days, day)
  {
  }

  /** The 30 cubes, one per grid day, in grid order: cube i shows day i + 1
      and is complete exactly when that day is in the list. */
  function Grid(routine: Option<ConfigData>, days: seq<int>): (g: seq<Cube>)
    ensures |g| == DayList.GridLength
    ensures forall i :: 0 <= i < |g| ==> g[i].day == i + 1 && (g[i].complete <==> i + 1 in days)
  {
    seq(DayList.GridLength, i requires 0 <= i < DayList.GridLength => RenderDayCube(routine, days, DayList.Days()[i]))
  }

  // ---------------------------------------------------------------------------
  // The screen's state and its event handlers.

  class HomeState {
    var showConfig: bool
    var selectedRoutine: Option<ConfigData>
    var completedTimes: nat
    var completedDays: seq<int>

    function ProgressOf(): Progress
      reads this
    {
      Progress(completedTimes, completedDays)
    }

    ghost predicate Valid()
      reads this
    {
      Bounded(ProgressOf(), selectedRoutine)
    }

    /** The screen's initial state: no routine, nothing done, sheet closed. */
    constructor ()
      ensures Valid()
      ensures !showConfig && selectedRoutine == None && completedTimes == 0 && completedDays == []
    {
      showConfig := false;
      selectedRoutine := None;
      completedTimes := 0;
      completedDays := [];
    }

    /** Whether the cube for day shows as complete. */
    function IsComplete(day: int): (r: bool)
      reads this
      ensures r <==> day in completedDays
    {
      DayList.Includes(completedDays, day)
    }

    /** The plus button opens the builder sheet. */
    method HandleAddRoutine()
      requires Valid()
      modifies this`showConfig
      ensures Valid()
      ensures showConfig
    {
      showConfig := true;
    }

    /** The builder's record becomes the selected routine, progress starts
      over and the sheet closes. */
    method HandleDoneConfig(configData: ConfigData)
      modifies this
      ensures Valid()
      ensures selectedRoutine == Some(configData)
      ensures completedTimes == 0 && completedDays == []
      ensures !showConfig
    {
      selectedRoutine := Some(configData);
      completedTimes := 0;
      completedDays := [];
      showConfig := false;
    }

    /** The check button: one press, as Press describes; the routine and the
      sheet stay as they are. */
    method HandleTimesCompleted()
      requires Valid()
      modifies this`completedTimes, this`completedDays
      ensures Valid()
      ensures ProgressOf() == Press(old(ProgressOf()), selectedRoutine)
    {
      if selectedRoutine.Some? && completedTimes < selectedRoutine.value.timesPerDay {
        var newCompletedTimes := completedTimes + 1;
        if newCompletedTimes == selectedRoutine.value.timesPerDay {
          completedDays := completedDays + [MarkedDay];
        }
        completedTimes := newCompletedTimes;
      }
    }

    /** A tap on a day cube toggles that day in the list. */
    method ToggleDayCompletion(day: int)
      requires Valid()
      modifies this`completedDays
      ensures Valid()
      ensures completedDays == DayList.Toggle(old(completedDays), day)
    {
      if DayList.Includes(completedDays, day) {
        completedDays := DayList.RemoveAll(completedDays, day);
      } else {
        completedDays := completedDays + [day];
      }
    }
  }

  /** On a fresh screen, tapping a cube before any routine exists marks its
      day, and the next render of that cube throws. */
  method TapCubeWithoutRoutine(day: int) returns (outcome: Rendered)
    ensures outcome.TypeError?
  {
    var home := new HomeState();
    home.ToggleDayCompletion(day);
    DayList.ToggleMembership([], day, day);
    outcome := RenderDayCubeAsWritten(home.selectedRoutine, home.completedDays, day);
  }
}
