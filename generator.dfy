/** The content provider shared by the four process templates: the template
    selector, the vocabulary each template supplies, the literal content
    tables (taken as a catalogue value), the generated fallback backlog
    items and the random task breakdown of a backlog item. */
module Generator {
  import opened Wrappers
  import opened WorkItemData
  import opened Text
  import Oracle
  import ScrumTemplate
  import AgileTemplate
  import CmmiTemplate
  import BasicTemplate

  datatype ProcessTemplate = Scrum | Agile | Basic | Cmmi

  /** The configured template name, compared after lower-casing; any other
      name is unsupported. */
  function ParseTemplate(name: string): (r: Option<ProcessTemplate>)
    ensures r.Some? ==> Lower(TemplateName(r.value)) == Lower(name)
    ensures r.None? ==> forall t: ProcessTemplate :: Lower(TemplateName(t)) != Lower(name)
  {
    LowerTemplateNames();
    var n := Lower(name);
    if n == "scrum" then Some(Scrum)
    else if n == "agile" then Some(Agile)
    else if n == "basic" then Some(Basic)
    else if n == "cmmi" then Some(Cmmi)
    else None
  }

  function TemplateName(t: ProcessTemplate): string {
    match t
    case Scrum => ScrumTemplate.TemplateName
    case Agile => AgileTemplate.TemplateName
    case Basic => BasicTemplate.TemplateName
    case Cmmi => CmmiTemplate.TemplateName
  }

  /** The display names, lower-cased. */
  lemma LowerTemplateNames()
    ensures Lower(TemplateName(Scrum)) == "scrum" && Lower(TemplateName(Agile)) == "agile"
    ensures Lower(TemplateName(Basic)) == "basic" && Lower(TemplateName(Cmmi)) == "cmmi"
  {
  }

  /** Every template's own display name selects that template again. */
  lemma ParseTemplateName(t: ProcessTemplate)
    ensures ParseTemplate(TemplateName(t)) == Some(t)
  {
    var n := TemplateName(t);
    match t
    case Scrum => assert Lower(n) == "scrum";
    case Agile => assert Lower(n) == "agile";
    case Basic => assert Lower(n) == "basic";
    case Cmmi => assert Lower(n) == "cmmi";
  }

  /** The work-item type of the third level: never one of the fixed level
      names, so the four levels never share a type. */
  function BacklogItemTypeName(t: ProcessTemplate): (r: string)
    ensures r != "Epic" && r != "Feature" && r != "Task"
  {
    match t
    case Scrum => ScrumTemplate.BacklogItemType
    case Agile => AgileTemplate.BacklogItemType
    case Basic => BasicTemplate.BacklogItemType
    case Cmmi => CmmiTemplate.BacklogItemType
  }

  /** The field that carries a backlog item's effort; never empty, so the
      effort of a backlog item is always written. */
  function EffortFieldName(t: ProcessTemplate): (r: string)
    ensures r != ""
  {
    match t
    case Scrum => ScrumTemplate.EffortField
    case Agile => AgileTemplate.EffortField
    case Basic => BasicTemplate.EffortField
    case Cmmi => CmmiTemplate.EffortField
  }

  function EpicStates(t: ProcessTemplate): seq<string> {
    match t
    case Scrum => ScrumTemplate.EpicStates
    case Agile => AgileTemplate.EpicStates
    case Basic => BasicTemplate.EpicStates
    case Cmmi => CmmiTemplate.EpicStates
  }

  function FeatureStates(t: ProcessTemplate): seq<string> {
    match t
    case Scrum => ScrumTemplate.FeatureStates
    case Agile => AgileTemplate.FeatureStates
    case Basic => BasicTemplate.FeatureStates
    case Cmmi => CmmiTemplate.FeatureStates
  }

  function BacklogItemStates(t: ProcessTemplate): (r: seq<string>)
    ensures |r| > 0
  {
    match t
    case Scrum => ScrumTemplate.BacklogItemStates
    case Agile => AgileTemplate.BacklogItemStates
    case Basic => BasicTemplate.BacklogItemStates
    case Cmmi => CmmiTemplate.BacklogItemStates
  }

  function TaskStates(t: ProcessTemplate): (r: seq<string>)
    ensures |r| > 0
  {
    match t
    case Scrum => ScrumTemplate.TaskStates
    case Agile => AgileTemplate.TaskStates
    case Basic => BasicTemplate.TaskStates
    case Cmmi => CmmiTemplate.TaskStates
  }

  function TaskTemplates(t: ProcessTemplate): seq<(string, string)> {
    match t
    case Scrum => ScrumTemplate.TaskTemplates
    case Agile => AgileTemplate.TaskTemplates
    case Basic => BasicTemplate.TaskTemplates
    case Cmmi => CmmiTemplate.TaskTemplates
  }

  function TaskCountLow(t: ProcessTemplate): int {
    match t
    case Scrum => ScrumTemplate.TaskCountLow
    case Agile => AgileTemplate.TaskCountLow
    case Basic => BasicTemplate.TaskCountLow
    case Cmmi => CmmiTemplate.TaskCountLow
  }

  function TaskCountHigh(t: ProcessTemplate): int {
    match t
    case Scrum => ScrumTemplate.TaskCountHigh
    case Agile => AgileTemplate.TaskCountHigh
    case Basic => BasicTemplate.TaskCountHigh
    case Cmmi => CmmiTemplate.TaskCountHigh
  }

  predicate TaskDone(t: ProcessTemplate, state: string) {
    match t
    case Scrum => ScrumTemplate.TaskDone(state)
    case Agile => AgileTemplate.TaskDone(state)
    case Basic => BasicTemplate.TaskDone(state)
    case Cmmi => CmmiTemplate.TaskDone(state)
  }

  function DefaultBacklogCount(t: ProcessTemplate): nat {
    match t
    case Scrum => ScrumTemplate.DefaultBacklogCount
    case Agile => AgileTemplate.DefaultBacklogCount
    case Basic => BasicTemplate.DefaultBacklogCount
    case Cmmi => CmmiTemplate.DefaultBacklogCount
  }

  /** No two entries of a template list share a title. */
  predicate TitlesDistinct(s: seq<(string, string)>) {
    forall i, j :: 0 <= i < j < |s| ==> s[i].0 != s[j].0
  }

  /** Every template can serve the largest count it draws, with distinct titles. */
  lemma TaskTemplatesFit(t: ProcessTemplate)
    ensures 0 < TaskCountLow(t) < TaskCountHigh(t) && TaskCountHigh(t) - 1 <= |TaskTemplates(t)|
    ensures TitlesDistinct(TaskTemplates(t))
  {
    match t
    case Scrum => ScrumTemplate.Vocabulary();
    case Agile => AgileTemplate.Vocabulary();
    case Basic => BasicTemplate.Vocabulary();
    case Cmmi => CmmiTemplate.Vocabulary();
  }

  /** The literal content tables of one template. `features` and
      `backlogItems` answer None when the title matches none of the table's
      literal branches. */
  datatype Catalogue = Catalogue(
    frontendEpics: seq<EpicData>,
    backendEpics: seq<EpicData>,
    features: (string, string) -> Option<seq<FeatureData>>,
    backlogItems: (string, string) -> Option<seq<BacklogItemData>>)

  /** "Frontend" gets its own epics; every other team name gets the backend list. */
  function GetEpicsForTeam(cat: Catalogue, teamName: string): (epics: seq<EpicData>)
    ensures teamName != "Frontend" ==> epics == cat.backendEpics
    ensures teamName == "Frontend" ==> epics == cat.frontendEpics
  {
    if teamName == "Frontend" then cat.frontendEpics else cat.backendEpics
  }

  /** The features of an epic: the literal list, or for Basic the two generated phases. */
  function GetFeaturesForEpic(t: ProcessTemplate, cat: Catalogue, teamName: string, epicTitle: string): (fs: seq<FeatureData>)
    ensures cat.features(teamName, epicTitle).Some? ==> fs == cat.features(teamName, epicTitle).value
    ensures cat.features(teamName, epicTitle).None? && t == Basic ==>
      |fs| == 2 && fs[0].title == epicTitle + " - Phase 1" && fs[1].title == epicTitle + " - Phase 2"
  {
    match cat.features(teamName, epicTitle)
    case Some(fs) => fs
    case None => if t == Basic then BasicTemplate.PhaseFeatures(epicTitle) else []
  }

  /** The title of the `i`-th generated backlog item (counting from 0). */
  function DefaultBacklogTitle(featureTitle: string, i: nat): string {
    featureTitle + " - Implementation Part " + NatToString(i + 1)
  }

  /** Generated backlog items of one feature never share a title. */
  lemma DefaultBacklogTitlesDistinct(featureTitle: string, i: nat, j: nat)
    requires i != j
    ensures DefaultBacklogTitle(featureTitle, i) != DefaultBacklogTitle(featureTitle, j)
  {
    if DefaultBacklogTitle(featureTitle, i) == DefaultBacklogTitle(featureTitle, j) {
      AppendCancel(featureTitle + " - Implementation Part ", NatToString(i + 1), NatToString(j + 1));
      NatToStringInjective(i + 1, j + 1);
    }
  }

  /** A list titled by `DefaultBacklogTitle` has pairwise distinct titles. */
  lemma DefaultBacklogTitlesPairwise(featureTitle: string, items: seq<BacklogItemData>)
    requires forall i :: 0 <= i < |items| ==> items[i].title == DefaultBacklogTitle(featureTitle, i)
    ensures forall i, j :: 0 <= i < j < |items| ==> items[i].title != items[j].title
  {
    forall i, j | 0 <= i < j < |items| ensures items[i].title != items[j].title {
      DefaultBacklogTitlesDistinct(featureTitle, i, j);
    }
  }

  const StoryPointChoices: seq<int> := [3, 5, 8, 13]

  /** The `k`-th generated backlog item of a feature, as far as it is fixed
      before the draws. */
  predicate DefaultItemFits(item: BacklogItemData, featureTitle: string, k: nat, states: seq<string>) {
    && item.title == DefaultBacklogTitle(featureTitle, k)
    && item.description == "Implement functionality for " + featureTitle
    && item.storyPoints in {3, 5, 8, 13}
    && item.state in states
  }

  /** `count` backlog items for a feature that has no literal list; each
      draws its story points, then its state. */
  method GenerateDefaultBacklogItems(t: ProcessTemplate, featureTitle: string, count: int, rng: Oracle.Random)
    returns (items: seq<BacklogItemData>)
    modifies rng
    ensures |items| == if count > 0 then count else 0
    ensures forall i :: 0 <= i < |items| ==> items[i].title == DefaultBacklogTitle(featureTitle, i)
    ensures forall i, j :: 0 <= i < j < |items| ==> items[i].title != items[j].title
    ensures forall i :: 0 <= i < |items| ==>
      items[i].description == "Implement functionality for " + featureTitle
    ensures forall i :: 0 <= i < |items| ==> items[i].storyPoints in {3, 5, 8, 13}
    ensures forall i :: 0 <= i < |items| ==> items[i].state in BacklogItemStates(t)
  {
    var states := BacklogItemStates(t);
    var description := "Implement functionality for " + featureTitle;
    items := [];
    var i := 0;
    while i < count
      invariant 0 <= i && |items| == i
      invariant count > 0 ==> i <= count
      invariant count <= 0 ==> i == 0
      invariant forall k :: 0 <= k < i ==> DefaultItemFits(items[k], featureTitle, k, states)
    {
      var p := rng.Next(0, |StoryPointChoices|);
      var points := StoryPointChoices[p];
      var s := rng.Next(0, |states|);
      var item := BacklogItemData(DefaultBacklogTitle(featureTitle, i), description, points, states[s]);
      assert DefaultItemFits(item, featureTitle, i, states);
      items := items + [item];
      i := i + 1;
    }
    DefaultBacklogTitlesPairwise(featureTitle, items);
  }

  /** The titles of a list of features, in order. */
  function FeatureTitles(fs: seq<FeatureData>): (r: seq<string>)
    ensures |r| == |fs| && forall k :: 0 <= k < |fs| ==> r[k] == fs[k].title
  {
    seq(|fs|, k requires 0 <= k < |fs| => fs[k].title)
  }

  /** The titles of a list of backlog items, in order. */
  function BacklogTitles(bs: seq<BacklogItemData>): (r: seq<string>)
    ensures |r| == |bs| && forall k :: 0 <= k < |bs| ==> r[k] == bs[k].title
  {
    seq(|bs|, k requires 0 <= k < |bs| => bs[k].title)
  }

  /** The titles of the backlog items a feature gets, which do not depend on
      any random draw: the listed ones, or the generated "Implementation Part" titles. */
  function ExpectedBacklogTitles(t: ProcessTemplate, cat: Catalogue, teamName: string, featureTitle: string): seq<string> {
    match cat.backlogItems(teamName, featureTitle)
    case Some(listed) => BacklogTitles(listed)
    case None => seq(DefaultBacklogCount(t), i requires 0 <= i => DefaultBacklogTitle(featureTitle, i))
  }

  /** The backlog items of a feature: the literal list, or the template's
      number of generated items. */
  method GetBacklogItemsForFeature(t: ProcessTemplate, cat: Catalogue, teamName: string,
                                   featureTitle: string, rng: Oracle.Random)
    returns (items: seq<BacklogItemData>)
    modifies rng
    ensures cat.backlogItems(teamName, featureTitle).Some? ==>
      items == cat.backlogItems(teamName, featureTitle).value && rng.tape == old(rng.tape)
    ensures cat.backlogItems(teamName, featureTitle).None? ==>
      |items| == DefaultBacklogCount(t) &&
      (forall i :: 0 <= i < |items| ==> items[i].title == DefaultBacklogTitle(featureTitle, i)) &&
      (forall i :: 0 <= i < |items| ==> items[i].state in BacklogItemStates(t))
    ensures BacklogTitles(items) == ExpectedBacklogTitles(t, cat, teamName, featureTitle)
  {
    match cat.backlogItems(teamName, featureTitle)
    case Some(listed) =>
      items := listed;
    case None =>
      items := GenerateDefaultBacklogItems(t, featureTitle, DefaultBacklogCount(t), rng);
  }

  /** `s` without its element at `k`. */
  function RemoveAt<T>(s: seq<T>, k: nat): (r: seq<T>)
    requires k < |s|
    ensures |r| == |s| - 1
    ensures forall m :: 0 <= m < |r| ==> r[m] == if m < k then s[m] else s[m + 1]
  {
    s[..k] + s[k + 1..]
  }

  /** `OrderBy(_ => Next()).Take(count)`: `count` entries (or all, if fewer)
      picked one by one without replacement, in the order picked. */
  method ShuffleTake(pool: seq<(string, string)>, count: int, rng: Oracle.Random)
    returns (picked: seq<(string, string)>)
    modifies rng
    ensures |picked| == if count <= 0 then 0 else if count <= |pool| then count else |pool|
    ensures forall i :: 0 <= i < |picked| ==> picked[i] in pool
    ensures TitlesDistinct(pool) ==> TitlesDistinct(picked)
  {
    picked := [];
    var rest := pool;
    while |picked| < count && rest != []
      invariant |picked| + |rest| == |pool|
      invariant count > 0 ==> |picked| <= count
      invariant count <= 0 ==> picked == []
      invariant forall i :: 0 <= i < |picked| ==> picked[i] in pool
      invariant forall i :: 0 <= i < |rest| ==> rest[i] in pool
      invariant TitlesDistinct(pool) ==>
        TitlesDistinct(picked) && TitlesDistinct(rest) &&
        forall i, j :: 0 <= i < |picked| && 0 <= j < |rest| ==> picked[i].0 != rest[j].0
      decreases |rest|
    {
      var k := rng.Next(0, |rest|);
      picked := picked + [rest[k]];
      rest := RemoveAt(rest, k);
    }
  }

  /** A task drawn for one template entry: a random state of the template,
      with no remaining work when that state counts as done and 1 to 8 hours otherwise. */
  predicate TaskDrawn(t: ProcessTemplate, entry: (string, string), task: TaskData) {
    && task.title == entry.0 && task.description == entry.1
    && task.state in TaskStates(t)
    && (task.remainingWork == 0 <==> TaskDone(t, task.state))
    && (task.remainingWork == 0 || 1 <= task.remainingWork <= 8)
  }

  method DrawTask(t: ProcessTemplate, entry: (string, string), rng: Oracle.Random) returns (task: TaskData)
    modifies rng
    ensures TaskDrawn(t, entry, task)
  {
    var states := TaskStates(t);
    var s := rng.Next(0, |states|);
    var state := states[s];
    var remaining := 0;
    if !TaskDone(t, state) {
      remaining := rng.Next(1, 9);
    }
    task := TaskData(entry.0, entry.1, remaining, state);
  }

  /** The tasks of one backlog item: a drawn number of distinct templates,
      each with a drawn state and, unless that state is the template's
      finished state, a drawn remaining work of 1 to 8 hours. */
  method GetTasksForBacklogItem(t: ProcessTemplate, backlogItemTitle: string, rng: Oracle.Random)
    returns (tasks: seq<TaskData>)
    modifies rng
    ensures TaskCountLow(t) <= |tasks| < TaskCountHigh(t)
    ensures forall i :: 0 <= i < |tasks| ==> (tasks[i].title, tasks[i].description) in TaskTemplates(t)
    ensures forall i, j :: 0 <= i < j < |tasks| ==> tasks[i].title != tasks[j].title
    ensures forall i :: 0 <= i < |tasks| ==> tasks[i].state in TaskStates(t)
    ensures forall i :: 0 <= i < |tasks| ==> (tasks[i].remainingWork == 0 <==> TaskDone(t, tasks[i].state))
    ensures forall i :: 0 <= i < |tasks| ==> tasks[i].remainingWork == 0 || 1 <= tasks[i].remainingWork <= 8
  {
    TaskTemplatesFit(t);
    var templates := TaskTemplates(t);
    var count := rng.Next(TaskCountLow(t), TaskCountHigh(t));
    var selected := ShuffleTake(templates, count, rng);
    assert |selected| == count;
    tasks := [];
    for k := 0 to |selected|
      invariant |tasks| == k
      invariant forall i :: 0 <= i < k ==> TaskDrawn(t, selected[i], tasks[i])
    {
      var task := DrawTask(t, selected[k], rng);
      tasks := tasks + [task];
    }
    forall i | 0 <= i < |tasks| ensures (tasks[i].title, tasks[i].description) in templates {
      assert (tasks[i].title, tasks[i].description) == selected[i];
    }
  }
}
