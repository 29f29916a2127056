/** Where a created work item is filed when sprint history is on: finished
    work goes to one of the three past sprints, work in progress to the
    current sprint, anything else stays at the project's root iteration. */
module Sprints {
  import opened Text
  import Oracle

  /** The states that count as finished work. */
  predicate IsCompletedState(state: string) {
    state == "Done" || state == "Closed" || state == "Resolved"
  }

  /** The states that count as work in progress. */
  predicate IsActiveState(state: string) {
    state == "Committed" || state == "Active" || state == "In Progress" || state == "Doing"
  }

  /** The iteration path of sprint `n` of a project. */
  function SprintPath(project: string, n: nat): string {
    project + "\\Sprint " + NatToString(n)
  }

  /** Sprint paths of one-digit sprint numbers, written out. */
  lemma SprintPathSmall(project: string, n: nat)
    requires 1 <= n <= 4
    ensures n == 1 ==> SprintPath(project, n) == project + "\\Sprint 1"
    ensures n == 2 ==> SprintPath(project, n) == project + "\\Sprint 2"
    ensures n == 3 ==> SprintPath(project, n) == project + "\\Sprint 3"
    ensures n == 4 ==> SprintPath(project, n) == project + "\\Sprint 4"
  {
    var d := NatToString(n);
    assert d == [DigitChar(n)];
    if n == 1 { assert "\\Sprint " + d == "\\Sprint 1"; }
    if n == 2 { assert "\\Sprint " + d == "\\Sprint 2"; }
    if n == 3 { assert "\\Sprint " + d == "\\Sprint 3"; }
    if n == 4 { assert "\\Sprint " + d == "\\Sprint 4"; }
    assert SprintPath(project, n) == project + ("\\Sprint " + d);
  }

  /** The iteration for `state`, where `draw` is the answer of `Next(1, 4)`
      (asked for finished work only). */
  function SprintForState(project: string, state: string, draw: int): (path: string)
    requires 1 <= draw < 4
    ensures IsCompletedState(state) ==>
      path in {project + "\\Sprint 1", project + "\\Sprint 2", project + "\\Sprint 3"}
    ensures !IsCompletedState(state) && IsActiveState(state) ==> path == project + "\\Sprint 4"
    ensures !IsCompletedState(state) && !IsActiveState(state) ==> path == project
  {
    if IsCompletedState(state) then
      SprintPathSmall(project, draw);
      SprintPath(project, draw)
    else if IsActiveState(state) then project + "\\Sprint 4"
    else project
  }

  /** The path tells the three kinds of state apart: the project root means
      neither finished nor in progress, Sprint 4 means in progress, and any
      other path means finished. */
  lemma {:induction false} SprintForStateClassifies(project: string, state: string, draw: int)
    requires 1 <= draw < 4
    ensures SprintForState(project, state, draw) == project <==>
      !IsCompletedState(state) && !IsActiveState(state)
    ensures SprintForState(project, state, draw) == project + "\\Sprint 4" <==>
      !IsCompletedState(state) && IsActiveState(state)
  {
    var path := SprintForState(project, state, draw);
    if IsCompletedState(state) {
      assert |path| == |project| + 9;
      var k := |project| + 8;
      assert path[k] == NatToString(draw)[0];
      assert (project + "\\Sprint 4")[k] == '4';
    }
  }

  /** `GetSprintForState`: draws a past sprint for finished work and asks
      the oracle nothing otherwise. */
  method GetSprintForState(project: string, state: string, rng: Oracle.Random) returns (path: string)
    modifies rng
    ensures path == SprintForState(project, state, Oracle.Draw(old(rng.tape), 1, 4))
    ensures rng.tape == if IsCompletedState(state) then Oracle.Rest(old(rng.tape)) else old(rng.tape)
  {
    if IsCompletedState(state) {
      var n := rng.Next(1, 4);
      path := SprintPath(project, n);
    } else if IsActiveState(state) {
      path := project + "\\Sprint 4";
    } else {
      path := project;
    }
  }
}
