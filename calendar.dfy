/** The five sprints the program describes and sets up when sprint history
    is on, as day offsets from today. One table is only displayed (the
    planned calendar), the other is written to the iteration nodes (the
    created calendar). */
module SprintCalendar {
  import Sprints

  /** A sprint named `name` running from day `start` to day `end` (inclusive),
      counted from today. */
  datatype Window = Window(name: string, start: int, end: int)

  /** The calendar printed by `CreateSprintsWithHistory`. */
  const Planned: seq<Window> := [
    Window("Sprint 1", -84, -71),
    Window("Sprint 2", -70, -57),
    Window("Sprint 3", -56, -43),
    Window("Sprint 4", -7, 7),
    Window("Sprint 5", 8, 21)
  ]

  /** The calendar written by `CreateSprintsWithDates`. */
  const Created: seq<Window> := [
    Window("Sprint 1", -84, -71),
    Window("Sprint 2", -70, -57),
    Window("Sprint 3", -56, -43),
    Window("Sprint 4", -7, 7),
    Window("Sprint 5", 8, 22)
  ]

  /** Every window is non-empty and ends before the next one starts. */
  predicate Chronological(ws: seq<Window>) {
    && (forall k :: 0 <= k < |ws| ==> ws[k].start <= ws[k].end)
    && (forall k :: 0 <= k < |ws| - 1 ==> ws[k].end < ws[k + 1].start)
  }

  /** The two calendars are ordered, the first three sprints lie in the
      past, Sprint 4 holds today, Sprint 5 lies ahead, and the two tables
      differ only in the last day of Sprint 5. */
  lemma CalendarShape()
    ensures Chronological(Planned) && Chronological(Created)
    ensures |Planned| == |Created| == 5
    ensures forall k :: 0 <= k < 3 ==> Created[k].end < 0
    ensures Created[3].start <= 0 <= Created[3].end && 0 < Created[4].start
    ensures forall k :: 0 <= k < 4 ==> Planned[k] == Created[k]
    ensures Planned[4].name == Created[4].name && Planned[4].start == Created[4].start
    ensures Planned[4].end + 1 == Created[4].end
  {
  }

  /** Every path the state mapping hands out below the project root names a
      sprint that is set up: finished work lands in a sprint that is already
      over, work in progress in the sprint that holds today. */
  lemma SprintsOfStatesExist(project: string, state: string, draw: int)
    requires 1 <= draw < 4
    ensures Sprints.IsCompletedState(state) ==>
      exists k :: 0 <= k < |Created| && Created[k].end < 0 &&
        Sprints.SprintForState(project, state, draw) == project + "\\" + Created[k].name
    ensures !Sprints.IsCompletedState(state) && Sprints.IsActiveState(state) ==>
      exists k :: 0 <= k < |Created| && Created[k].start <= 0 <= Created[k].end &&
        Sprints.SprintForState(project, state, draw) == project + "\\" + Created[k].name
  {
    var path := Sprints.SprintForState(project, state, draw);
    if Sprints.IsCompletedState(state) {
      var k := draw - 1;
      Sprints.SprintPathSmall(project, draw);
      assert project + "\\" + Created[k].name == project + ("\\" + Created[k].name);
      assert "\\" + Created[k].name == "\\Sprint " + [Created[k].name[7]];
    } else if Sprints.IsActiveState(state) {
      assert path == project + "\\" + Created[3].name;
    }
  }
}
