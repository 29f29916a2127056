/** The vocabulary of the Agile process template. */
module AgileTemplate {

  const TemplateName: string := "Agile"
  const BacklogItemType: string := "User Story"
  const EffortField: string := "Microsoft.VSTS.Scheduling.StoryPoints"

  const EpicStates: seq<string> := ["New", "Active", "Resolved", "Closed"]
  const FeatureStates: seq<string> := ["New", "Active", "Resolved", "Closed"]
  const BacklogItemStates: seq<string> := ["New", "Active", "Resolved", "Closed", "Removed"]
  const TaskStates: seq<string> := ["To Do", "In Progress", "Done"]

  const TaskCountLow: int := 2
  const TaskCountHigh: int := 5

  const TaskTemplates: seq<(string, string)> := [
    ("Design UI mockups", "Create wireframes and mockups"),
    ("Implement frontend", "Build user interface components"),
    ("Develop backend API", "Create supporting backend services"),
    ("Write tests", "Create unit and integration tests"),
    ("Review and refine", "Code review and improvements")
  ]

  predicate TaskDone(state: string) {
    state == "Done"
  }

  const DefaultBacklogCount: int := 3

  /** Task states are exactly three; backlog states include "Removed". */
  lemma Vocabulary()
    ensures (set s | s in TaskStates) == {"To Do", "In Progress", "Done"}
    ensures "Removed" in BacklogItemStates
    ensures TaskCountHigh - 1 <= |TaskTemplates| == 5
    ensures forall i, j :: 0 <= i < j < |TaskTemplates| ==> TaskTemplates[i].0 != TaskTemplates[j].0
  {
  }
}
