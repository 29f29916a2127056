/** The vocabulary of the Basic process template. */
module BasicTemplate {
  import opened WorkItemData

  const TemplateName: string := "Basic"
  const BacklogItemType: string := "Issue"
  const EffortField: string := "Microsoft.VSTS.Scheduling.Size"

  /** The same three states serve every level. */
  const States: seq<string> := ["To Do", "Doing", "Done"]
  const EpicStates: seq<string> := States
  const FeatureStates: seq<string> := States
  const BacklogItemStates: seq<string> := States
  const TaskStates: seq<string> := States

  const TaskCountLow: int := 2
  const TaskCountHigh: int := 4

  const TaskTemplates: seq<(string, string)> := [
    ("Setup", "Initial setup and configuration"),
    ("Implementation", "Core implementation work"),
    ("Testing", "Test the implementation"),
    ("Documentation", "Update documentation")
  ]

  predicate TaskDone(state: string) {
    state == "Done"
  }

  /** Basic generates two backlog items, not three, for an unlisted feature. */
  const DefaultBacklogCount: int := 2

  /** The features of an epic that has no literal list: two phases named after it. */
  function PhaseFeatures(epicTitle: string): (fs: seq<FeatureData>)
    ensures |fs| == 2
    ensures fs[0].title == epicTitle + " - Phase 1" && fs[1].title == epicTitle + " - Phase 2"
    ensures fs[0].title != fs[1].title
    ensures forall i :: 0 <= i < |fs| ==> fs[i].state == "To Do" && fs[i].state in FeatureStates
  {
    assert (epicTitle + " - Phase 1")[|epicTitle| + 9] != (epicTitle + " - Phase 2")[|epicTitle| + 9];
    [FeatureData(epicTitle + " - Phase 1", "Initial phase", "To Do"),
     FeatureData(epicTitle + " - Phase 2", "Second phase", "To Do")]
  }

  lemma Vocabulary()
    ensures (set s | s in States) == {"To Do", "Doing", "Done"}
    ensures EpicStates == FeatureStates == BacklogItemStates == TaskStates == States
    ensures TaskCountHigh - 1 <= |TaskTemplates| == 4
    ensures forall i, j :: 0 <= i < j < |TaskTemplates| ==> TaskTemplates[i].0 != TaskTemplates[j].0
  {
  }
}
