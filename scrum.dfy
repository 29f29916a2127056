/** The vocabulary of the Scrum process template. */
module ScrumTemplate {

  const TemplateName: string := "Scrum"
  const BacklogItemType: string := "Product Backlog Item"
  const EffortField: string := "Microsoft.VSTS.Scheduling.Effort"

  const EpicStates: seq<string> := ["New", "In Progress", "Done", "Removed"]
  const FeatureStates: seq<string> := ["New", "In Progress", "Removed"]
  const BacklogItemStates: seq<string> := ["New", "Approved", "Committed", "Done", "Removed"]
  const TaskStates: seq<string> := ["To Do", "In Progress", "Done", "Removed"]

  /** The task count is drawn from [TaskCountLow, TaskCountHigh). */
  const TaskCountLow: int := 2
  const TaskCountHigh: int := 5

  const TaskTemplates: seq<(string, string)> := [
    ("Create component/service structure", "Set up basic structure and dependencies"),
    ("Implement core functionality", "Develop main business logic"),
    ("Add unit tests", "Write comprehensive unit tests"),
    ("Add integration tests", "Create integration test suite"),
    ("Code review and refactoring", "Review code and refactor as needed"),
    ("Update documentation", "Document API/component usage")
  ]

  /** A task in this state carries no remaining work. */
  predicate TaskDone(state: string) {
    state == "Done"
  }

  /** How many generated items a feature without a literal list gets. */
  const DefaultBacklogCount: int := 3

  /** Feature states leave out "Done"; task states are exactly four; six
      distinct task templates cover any drawn count. */
  lemma Vocabulary()
    ensures "Done" !in FeatureStates
    ensures (set s | s in TaskStates) == {"To Do", "In Progress", "Done", "Removed"}
    ensures TaskCountHigh - 1 <= |TaskTemplates| == 6
    ensures forall i, j :: 0 <= i < j < |TaskTemplates| ==> TaskTemplates[i].0 != TaskTemplates[j].0
  {
  }
}
