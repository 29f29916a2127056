/** The content records a template hands to the synchronizer: plain value
    objects with the defaults of their property initialisers. */
module WorkItemData {

  datatype EpicData = EpicData(title: string := "", description: string := "", state: string := "New")

  datatype FeatureData = FeatureData(title: string := "", description: string := "", state: string := "New")

  datatype BacklogItemData = BacklogItemData(
    title: string := "", description: string := "", storyPoints: int := 0, state: string := "New")

  datatype TaskData = TaskData(
    title: string := "", description: string := "", remainingWork: int := 0, state: string := "To Do")

  /** A record built without initialisers: empty texts, zero numbers, and the
      initial state of its level ("New", or "To Do" for a task). */
  lemma RecordDefaults()
    ensures EpicData() == EpicData("", "", "New")
    ensures FeatureData() == FeatureData("", "", "New")
    ensures BacklogItemData() == BacklogItemData("", "", 0, "New")
    ensures TaskData() == TaskData("", "", 0, "To Do")
  {
  }
}
