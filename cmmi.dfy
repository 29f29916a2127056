/** The vocabulary of the CMMI process template. */
module CmmiTemplate {

  const TemplateName: string := "CMMI"
  const BacklogItemType: string := "Requirement"
  const EffortField: string := "Microsoft.VSTS.Scheduling.Size"

  /** The same four states serve every level. */
  const States: seq<string> := ["Proposed", "Active", "Resolved", "Closed"]
  const EpicStates: seq<string> := States
  const FeatureStates: seq<string> := States
  const BacklogItemStates: seq<string> := States
  const TaskStates: seq<string> := States

  const TaskCountLow: int := 3
  const TaskCountHigh: int := 6

  const TaskTemplates: seq<(string, string)> := [
    ("Requirements analysis", "Analyze and document detailed requirements"),
    ("Design specification", "Create technical design specification"),
    ("Implementation", "Develop the solution"),
    ("Unit testing", "Create and execute unit tests"),
    ("Integration testing", "Perform integration testing"),
    ("Documentation", "Create technical and user documentation"),
    ("Code review", "Conduct peer code review"),
    ("Validation", "Validate against requirements")
  ]

  /** Both "Closed" and "Resolved" tasks carry no remaining work. */
  predicate TaskDone(state: string) {
    state == "Closed" || state == "Resolved"
  }

  const DefaultBacklogCount: int := 3

  lemma Vocabulary()
    ensures (set s | s in States) == {"Proposed", "Active", "Resolved", "Closed"}
    ensures EpicStates == FeatureStates == BacklogItemStates == TaskStates == States
    ensures TaskCountHigh - 1 <= |TaskTemplates| == 8
    ensures forall i, j :: 0 <= i < j < |TaskTemplates| ==> TaskTemplates[i].0 != TaskTemplates[j].0
  {
  }
}
