/** `GenerateFullBacklog`: for every configured team, the epics of the team,
    under each epic created in this run its features, under each feature
    created in this run its backlog items, and under each backlog item
    created in this run (when its state calls for it) its tasks. An item
    whose key already exists is skipped together with everything below it.
    The four nested loops of the program are one method per level here. */
module Backlog {
  import opened Wrappers
  import opened WorkItemData
  import opened TrackingStore
  import opened ItemCreation
  import Generator
  import Oracle
  import Sprints
  import Wiql

  datatype TeamConfig = TeamConfig(name: string := "", areaPath: string := "", iterationPath: string := "")

  /** The settings a run reads; the connection settings are not part of this model. */
  datatype Configuration = Configuration(
    projectName: string := "",
    processTemplate: string := "Scrum",
    useSprintHistory: bool := false,
    teams: seq<TeamConfig> := [])

  /** Whether a backlog item in `state` gets tasks, where `draw` is the
      answer of `Next(100)` (asked only when the state is neither finished
      nor initial). */
  function TaskGate(state: string, draw: int): (create: bool)
    ensures Sprints.IsCompletedState(state) ==> create
    ensures IsDefaultState(state) ==> !create
    ensures !Sprints.IsCompletedState(state) && !IsDefaultState(state) ==> (create <==> draw < 50)
  {
    Sprints.IsCompletedState(state) || (!IsDefaultState(state) && draw < 50)
  }

  method ShouldCreateTasks(state: string, rng: Oracle.Random) returns (create: bool)
    modifies rng
    ensures create == TaskGate(state, Oracle.Draw(old(rng.tape), 0, 100))
    ensures rng.tape == if !Sprints.IsCompletedState(state) && !IsDefaultState(state)
      then Oracle.Rest(old(rng.tape)) else old(rng.tape)
  {
    create := Sprints.IsCompletedState(state);
    if !create && !IsDefaultState(state) {
      var draw := rng.Next(0, 100);
      create := draw < 50;
    }
  }

  /** A task's title: the backlog item's title, a colon, and the template title. */
  function TaskTitle(backlogTitle: string, taskTitle: string): (r: string)
    ensures |r| == |backlogTitle| + 2 + |taskTitle|
    ensures r[..|backlogTitle| + 2] == backlogTitle + ": "
    ensures r[|backlogTitle| + 2..] == taskTitle
  {
    backlogTitle + ": " + taskTitle
  }

  /** Tasks with different template titles under one backlog item get
      different titles, so they never skip one another. */
  lemma TaskTitlesDistinct(backlogTitle: string, a: string, b: string)
    requires a != b
    ensures TaskTitle(backlogTitle, a) != TaskTitle(backlogTitle, b)
  {
    assert TaskTitle(backlogTitle, a)[|backlogTitle| + 2..] != TaskTitle(backlogTitle, b)[|backlogTitle| + 2..];
  }

  /** `item` has a parent of type `parentType` that was created in this run
      (its id is at least `start`). */
  ghost predicate ParentIs(items: map<nat, WorkItem>, start: nat, item: WorkItem, parentType: string) {
    && item.parent.Some?
    && start <= item.parent.value
    && item.parent.value in items
    && items[item.parent.value].itemType == parentType
  }

  /** A task sits under a backlog item that left its initial state, carries
      that item's title as prefix, and under finished work is itself "Done"
      with no hours left. */
  ghost predicate TaskFits(task: WorkItem, parent: WorkItem) {
    && parent.state.Some?
    && |parent.title| + 2 <= |task.title|
    && task.title[..|parent.title| + 2] == parent.title + ": "
    && (Sprints.IsCompletedState(parent.state.value) ==>
          task.state == Some("Done") && task.numbers == map[RemainingWorkField := 0])
  }

  /** The place of an item created in this run: an epic has no parent, and
      every other level hangs under an item of the level above that was
      itself created in this run. */
  ghost predicate PlacedItem(items: map<nat, WorkItem>, start: nat, t: Generator.ProcessTemplate, item: WorkItem) {
    || (item.itemType == "Epic" && item.parent.None?)
    || (item.itemType == "Feature" && ParentIs(items, start, item, "Epic"))
    || (item.itemType == Generator.BacklogItemTypeName(t) && ParentIs(items, start, item, "Feature"))
    || (item.itemType == "Task" && ParentIs(items, start, item, Generator.BacklogItemTypeName(t))
        && TaskFits(item, items[item.parent.value]))
  }

  /** Every item with an id of at least `start` is placed. */
  ghost predicate Placed(items: map<nat, WorkItem>, start: nat, t: Generator.ProcessTemplate) {
    forall id :: id in items && start <= id ==> PlacedItem(items, start, t, items[id])
  }

  lemma PlacedItemExtends(before: map<nat, WorkItem>, after: map<nat, WorkItem>, start: nat,
                          t: Generator.ProcessTemplate, item: WorkItem)
    requires Extends(before, after) && PlacedItem(before, start, t, item)
    ensures PlacedItem(after, start, t, item)
  {
    if item.parent.Some? && item.parent.value in before {
      assert after[item.parent.value] == before[item.parent.value];
    }
  }

  /** Adding a placed item keeps every item placed. */
  lemma PlacedAdd(items: map<nat, WorkItem>, start: nat, t: Generator.ProcessTemplate, id: nat, item: WorkItem)
    requires Placed(items, start, t) && id !in items && PlacedItem(items, start, t, item)
    ensures Extends(items, items[id := item])
    ensures Placed(items[id := item], start, t)
  {
    var after := items[id := item];
    forall k | k in after && start <= k ensures PlacedItem(after, start, t, after[k]) {
      PlacedItemExtends(items, after, start, t, after[k]);
    }
  }

  // ------------------------------------------------------------ titles asked for

  /** The titles of a list of epics, in order. */
  function EpicTitles(epics: seq<EpicData>): (r: seq<string>)
    ensures |r| == |epics| && forall k :: 0 <= k < |epics| ==> r[k] == epics[k].title
  {
    seq(|epics|, k requires 0 <= k < |epics| => epics[k].title)
  }

  /** The titles the tasks of one backlog item are created under, in order. */
  function TaskTitles(backlogTitle: string, tasks: seq<TaskData>): (r: seq<string>)
    ensures |r| == |tasks| && forall k :: 0 <= k < |tasks| ==> r[k] == TaskTitle(backlogTitle, tasks[k].title)
  {
    seq(|tasks|, k requires 0 <= k < |tasks| => TaskTitle(backlogTitle, tasks[k].title))
  }

  /** Every title of `titles` has its key (under `project` and `area`) in the store. */
  predicate TitlesPresent(items: map<nat, WorkItem>, project: string, titles: seq<string>, area: string) {
    forall j :: 0 <= j < |titles| ==> KeyExists(items, project, titles[j], area)
  }

  lemma TitlesPresentExtends(before: map<nat, WorkItem>, after: map<nat, WorkItem>, project: string,
                             titles: seq<string>, area: string)
    requires Extends(before, after) && TitlesPresent(before, project, titles, area)
    ensures TitlesPresent(after, project, titles, area)
  {
    forall j | 0 <= j < |titles| ensures KeyExists(after, project, titles[j], area) {
      KeyExistsExtends(before, after, project, titles[j], area);
    }
  }

  /** One more title of a list is present after a step that only grew the store. */
  lemma TitlesPresentStep(before: map<nat, WorkItem>, after: map<nat, WorkItem>, project: string,
                          titles: seq<string>, k: nat, area: string)
    requires Extends(before, after) && k < |titles|
    requires TitlesPresent(before, project, titles[..k], area)
    requires KeyExists(after, project, titles[k], area)
    ensures TitlesPresent(after, project, titles[..k + 1], area)
  {
    TitlesPresentExtends(before, after, project, titles[..k], area);
    assert titles[..k + 1] == titles[..k] + [titles[k]];
  }

  /** Every epic of `epics` has its key in the store. */
  predicate EpicsPresent(items: map<nat, WorkItem>, project: string, epics: seq<EpicData>, area: string) {
    TitlesPresent(items, project, EpicTitles(epics), area)
  }

  /** No area path of `teams` holds a quote. */
  predicate TeamsPlain(teams: seq<TeamConfig>) {
    forall k :: 0 <= k < |teams| ==> Wiql.Plain(teams[k].areaPath)
  }

  /** Neither the project name nor any area path holds a quote, so every
      existence check reads them as written. */
  predicate AllPlain(config: Configuration) {
    Wiql.Plain(config.projectName) && TeamsPlain(config.teams)
  }

  /** Every epic of every team of `teams` has its key in the store. */
  predicate TeamsEpicsPresent(items: map<nat, WorkItem>, project: string, teams: seq<TeamConfig>,
                              cat: Generator.Catalogue)
  {
    forall k :: 0 <= k < |teams| ==>
      EpicsPresent(items, project, Generator.GetEpicsForTeam(cat, teams[k].name), teams[k].areaPath)
  }

  predicate AllEpicsPresent(items: map<nat, WorkItem>, config: Configuration, cat: Generator.Catalogue) {
    TeamsEpicsPresent(items, config.projectName, config.teams, cat)
  }

  lemma TeamsEpicsPresentExtends(before: map<nat, WorkItem>, after: map<nat, WorkItem>, project: string,
                                 teams: seq<TeamConfig>, cat: Generator.Catalogue)
    requires Extends(before, after) && TeamsEpicsPresent(before, project, teams, cat)
    ensures TeamsEpicsPresent(after, project, teams, cat)
  {
    forall k | 0 <= k < |teams|
      ensures EpicsPresent(after, project, Generator.GetEpicsForTeam(cat, teams[k].name), teams[k].areaPath)
    {
      TitlesPresentExtends(before, after, project,
        EpicTitles(Generator.GetEpicsForTeam(cat, teams[k].name)), teams[k].areaPath);
    }
  }

  // ------------------------------------------------------------ what a call adds

  /** Every item added between `before` and `after` has one of the types `types`. */
  ghost predicate NewOfTypes(before: map<nat, WorkItem>, after: map<nat, WorkItem>, types: set<string>) {
    forall id :: id in after && id !in before ==> after[id].itemType in types
  }

  /** Every item of type `childType` added between `before` and `after` hangs under `parent`. */
  ghost predicate NewUnder(before: map<nat, WorkItem>, after: map<nat, WorkItem>, childType: string, parent: nat) {
    forall id :: id in after && id !in before && after[id].itemType == childType ==> after[id].parent == Some(parent)
  }

  lemma NewJoin(a: map<nat, WorkItem>, b: map<nat, WorkItem>, c: map<nat, WorkItem>,
                types: set<string>, childType: string, parent: nat)
    requires Extends(a, b) && Extends(b, c)
    requires NewOfTypes(a, b, types) && NewOfTypes(b, c, types)
    requires NewUnder(a, b, childType, parent) && NewUnder(b, c, childType, parent)
    ensures NewOfTypes(a, c, types) && NewUnder(a, c, childType, parent)
  {
    forall id | id in c && id !in a && id in b ensures c[id] == b[id] {
    }
  }

  /** A possible answer of `GetTasksForBacklogItem`: a count in the
      template's range of task templates with pairwise distinct titles. */
  predicate FullDraw(t: Generator.ProcessTemplate, tasks: seq<TaskData>) {
    && Generator.TaskCountLow(t) <= |tasks| < Generator.TaskCountHigh(t)
    && (forall i :: 0 <= i < |tasks| ==> (tasks[i].title, tasks[i].description) in Generator.TaskTemplates(t))
    && (forall i, j :: 0 <= i < j < |tasks| ==> tasks[i].title != tasks[j].title)
  }

  /** The task titles of a full draw are pairwise distinct, so a full draw
      stands for as many distinct task keys as it has tasks. */
  lemma FullDrawTitlesDistinct(t: Generator.ProcessTemplate, title: string, tasks: seq<TaskData>)
    requires FullDraw(t, tasks)
    ensures forall i, j :: 0 <= i < j < |tasks| ==> TaskTitles(title, tasks)[i] != TaskTitles(title, tasks)[j]
  {
    forall i, j | 0 <= i < j < |tasks|
      ensures TaskTitles(title, tasks)[i] != TaskTitles(title, tasks)[j]
    {
      TaskTitlesDistinct(title, tasks[i].title, tasks[j].title);
    }
  }

  /** A full draw of tasks for a backlog item titled `title` has all its
      keys in the store: that many distinct task keys exist. */
  ghost predicate TasksPresent(items: map<nat, WorkItem>, project: string, t: Generator.ProcessTemplate,
                               title: string, area: string)
  {
    exists tasks: seq<TaskData> ::
      FullDraw(t, tasks) && TitlesPresent(items, project, TaskTitles(title, tasks), area)
  }

  lemma TasksPresentExtends(before: map<nat, WorkItem>, after: map<nat, WorkItem>, project: string,
                            t: Generator.ProcessTemplate, title: string, area: string)
    requires Extends(before, after) && TasksPresent(before, project, t, title, area)
    ensures TasksPresent(after, project, t, title, area)
  {
    var tasks: seq<TaskData> :| FullDraw(t, tasks) && TitlesPresent(before, project, TaskTitles(title, tasks), area);
    TitlesPresentExtends(before, after, project, TaskTitles(title, tasks), area);
  }

  /** The children an item created in this run must have once the run is
      over: for an epic, the keys of all its features; for a feature, the
      keys of all its backlog items; for a backlog item in a finished state,
      the keys of a full draw of tasks. */
  ghost predicate ChildrenPresent(items: map<nat, WorkItem>, project: string, t: Generator.ProcessTemplate,
                                  cat: Generator.Catalogue, team: TeamConfig, item: WorkItem)
  {
    && (item.itemType == "Epic" ==>
          TitlesPresent(items, project,
            Generator.FeatureTitles(Generator.GetFeaturesForEpic(t, cat, team.name, item.title)), team.areaPath))
    && (item.itemType == "Feature" ==>
          TitlesPresent(items, project, Generator.ExpectedBacklogTitles(t, cat, team.name, item.title), team.areaPath))
    && (item.itemType == Generator.BacklogItemTypeName(t) && item.state.Some? &&
        Sprints.IsCompletedState(item.state.value) ==>
          TasksPresent(items, project, t, item.title, team.areaPath))
  }

  lemma ChildrenPresentExtends(before: map<nat, WorkItem>, after: map<nat, WorkItem>, project: string,
                               t: Generator.ProcessTemplate, cat: Generator.Catalogue, team: TeamConfig, item: WorkItem)
    requires Extends(before, after) && ChildrenPresent(before, project, t, cat, team, item)
    ensures ChildrenPresent(after, project, t, cat, team, item)
  {
    if item.itemType == "Epic" {
      TitlesPresentExtends(before, after, project,
        Generator.FeatureTitles(Generator.GetFeaturesForEpic(t, cat, team.name, item.title)), team.areaPath);
    }
    if item.itemType == "Feature" {
      TitlesPresentExtends(before, after, project,
        Generator.ExpectedBacklogTitles(t, cat, team.name, item.title), team.areaPath);
    }
    if item.itemType == Generator.BacklogItemTypeName(t) && item.state.Some? &&
       Sprints.IsCompletedState(item.state.value) {
      TasksPresentExtends(before, after, project, t, item.title, team.areaPath);
    }
  }

  /** The walk went down below every item added between `before` and `after`. */
  ghost predicate Descended(before: map<nat, WorkItem>, after: map<nat, WorkItem>, project: string,
                            t: Generator.ProcessTemplate, cat: Generator.Catalogue, team: TeamConfig)
  {
    forall id :: id in after && id !in before ==> ChildrenPresent(after, project, t, cat, team, after[id])
  }

  lemma DescendedJoin(a: map<nat, WorkItem>, b: map<nat, WorkItem>, c: map<nat, WorkItem>, project: string,
                      t: Generator.ProcessTemplate, cat: Generator.Catalogue, team: TeamConfig)
    requires Extends(a, b) && Extends(b, c)
    requires Descended(a, b, project, t, cat, team) && Descended(b, c, project, t, cat, team)
    ensures Descended(a, c, project, t, cat, team)
  {
    forall id | id in c && id !in a ensures ChildrenPresent(c, project, t, cat, team, c[id]) {
      if id in b {
        ChildrenPresentExtends(b, c, project, t, cat, team, b[id]);
      }
    }
  }

  /** Tasks need no children of their own. */
  lemma DescendedLowerLevels(before: map<nat, WorkItem>, after: map<nat, WorkItem>, project: string,
                             t: Generator.ProcessTemplate, cat: Generator.Catalogue, team: TeamConfig)
    requires NewOfTypes(before, after, {"Task"})
    ensures Descended(before, after, project, t, cat, team)
  {
  }

  /** The walk went down below every item added between `before` and
      `after`, each read with the catalogue entries of one of `teams`. */
  ghost predicate DescendedForTeams(before: map<nat, WorkItem>, after: map<nat, WorkItem>, project: string,
                                    t: Generator.ProcessTemplate, cat: Generator.Catalogue, teams: seq<TeamConfig>)
  {
    forall id :: id in after && id !in before ==>
      exists k :: 0 <= k < |teams| && ChildrenPresent(after, project, t, cat, teams[k], after[id])
  }

  lemma DescendedForTeamsStep(a: map<nat, WorkItem>, b: map<nat, WorkItem>, c: map<nat, WorkItem>, project: string,
                              t: Generator.ProcessTemplate, cat: Generator.Catalogue, teams: seq<TeamConfig>, k: nat)
    requires Extends(a, b) && Extends(b, c) && k < |teams|
    requires DescendedForTeams(a, b, project, t, cat, teams) && Descended(b, c, project, t, cat, teams[k])
    ensures DescendedForTeams(a, c, project, t, cat, teams)
  {
    forall id | id in c && id !in a
      ensures exists j :: 0 <= j < |teams| && ChildrenPresent(c, project, t, cat, teams[j], c[id])
    {
      if id in b {
        var j :| 0 <= j < |teams| && ChildrenPresent(b, project, t, cat, teams[j], b[id]);
        ChildrenPresentExtends(b, c, project, t, cat, teams[j], b[id]);
      } else {
        assert ChildrenPresent(c, project, t, cat, teams[k], c[id]);
      }
    }
  }

  /** One more team walked: its epics join those of the teams before it,
      and the descent below every item created so far carries over. */
  lemma TeamsStep(a: map<nat, WorkItem>, b: map<nat, WorkItem>, c: map<nat, WorkItem>, project: string,
                  t: Generator.ProcessTemplate, cat: Generator.Catalogue, teams: seq<TeamConfig>, k: nat)
    requires Extends(a, b) && Extends(b, c) && k < |teams|
    requires TeamsEpicsPresent(b, project, teams[..k], cat)
    requires EpicsPresent(c, project, Generator.GetEpicsForTeam(cat, teams[k].name), teams[k].areaPath)
    requires DescendedForTeams(a, b, project, t, cat, teams) && Descended(b, c, project, t, cat, teams[k])
    ensures TeamsEpicsPresent(c, project, teams[..k + 1], cat)
    ensures DescendedForTeams(a, c, project, t, cat, teams)
  {
    TeamsEpicsPresentExtends(b, c, project, teams[..k], cat);
    assert teams[..k + 1] == teams[..k] + [teams[k]];
    DescendedForTeamsStep(a, b, c, project, t, cat, teams, k);
  }

  /** An item `item` added under `parent` before a run of lower levels:
      the items added overall are that one and the lower levels' items. */
  lemma NewAfterAdded(a: map<nat, WorkItem>, c: map<nat, WorkItem>, id: nat, item: WorkItem,
                      lower: set<string>, parent: nat)
    requires id !in a && Extends(a[id := item], c)
    requires item.parent == Some(parent) && item.itemType !in lower
    requires NewOfTypes(a[id := item], c, lower)
    ensures NewOfTypes(a, c, lower + {item.itemType}) && NewUnder(a, c, item.itemType, parent)
  {
    forall k | k in c && k !in a
      ensures c[k].itemType in lower + {item.itemType}
      ensures c[k].itemType == item.itemType ==> c[k].parent == Some(parent)
    {
      if k == id {
        assert c[k] == item;
      }
    }
  }

  /** An item added whose children are present, followed by a walk that
      descended below everything it added, descended below everything. */
  lemma DescendedAfterAdded(a: map<nat, WorkItem>, c: map<nat, WorkItem>, id: nat, item: WorkItem,
                            project: string, t: Generator.ProcessTemplate, cat: Generator.Catalogue,
                            team: TeamConfig)
    requires id !in a && Extends(a[id := item], c)
    requires ChildrenPresent(c, project, t, cat, team, item)
    requires Descended(a[id := item], c, project, t, cat, team)
    ensures Descended(a, c, project, t, cat, team)
  {
    forall k | k in c && k !in a ensures ChildrenPresent(c, project, t, cat, team, c[k]) {
      if k == id {
        assert c[k] == item;
      }
    }
  }

  // ------------------------------------------------------------ tasks as created

  /** The state a task is created in: "Done" under finished work, else the state drawn for it. */
  function TaskStateUnder(parentState: string, task: TaskData): string {
    if Sprints.IsCompletedState(parentState) then "Done" else task.state
  }

  /** The remaining work a task is created with: none under finished work, else the hours drawn for it. */
  function TaskRemainingUnder(parentState: string, task: TaskData): int {
    if Sprints.IsCompletedState(parentState) then 0 else task.remainingWork
  }

  /** `item` is the task created for `task` under `backlog`: its prefixed
      title, its description, its state after the completion override (none
      stored for "To Do") and its remaining work after the override. */
  predicate TaskMade(item: WorkItem, backlog: BacklogItemData, task: TaskData) {
    var state := TaskStateUnder(backlog.state, task);
    && item.itemType == "Task"
    && item.title == TaskTitle(backlog.title, task.title)
    && item.description == task.description
    && item.state == (if state != "To Do" then Some(state) else None)
    && item.numbers == map[RemainingWorkField := TaskRemainingUnder(backlog.state, task)]
  }

  /** Every item added between `before` and `after` is the task created for one of `tasks`. */
  ghost predicate MadeFrom(before: map<nat, WorkItem>, after: map<nat, WorkItem>, backlog: BacklogItemData,
                           tasks: seq<TaskData>)
  {
    forall id :: id in after && id !in before ==>
      exists k :: 0 <= k < |tasks| && TaskMade(after[id], backlog, tasks[k])
  }

  lemma MadeFromStep(a: map<nat, WorkItem>, b: map<nat, WorkItem>, c: map<nat, WorkItem>,
                     backlog: BacklogItemData, tasks: seq<TaskData>, k: nat)
    requires Extends(a, b) && Extends(b, c) && k < |tasks|
    requires MadeFrom(a, b, backlog, tasks)
    requires forall id :: id in c && id !in b ==> TaskMade(c[id], backlog, tasks[k])
    ensures MadeFrom(a, c, backlog, tasks)
  {
    forall id | id in c && id !in a
      ensures exists j :: 0 <= j < |tasks| && TaskMade(c[id], backlog, tasks[j])
    {
      if id in b {
        var j :| 0 <= j < |tasks| && TaskMade(b[id], backlog, tasks[j]);
        assert c[id] == b[id];
      } else {
        assert TaskMade(c[id], backlog, tasks[k]);
      }
    }
  }

  // ------------------------------------------------------------ the walk

  /** `CreateWorkItem` as the walk sees it: the outcome, and for a new item
      the fields the levels below rely on, leaving out the call log, the
      sprint and the effort numbers. */
  method CreateLevelItem(store: Store, rng: Oracle.Random, project: string, itemType: string,
                         title: string, description: string, area: string, parentId: Option<nat>,
                         state: string, effort: Option<int>, effortFieldName: string,
                         iterationPath: string, useSprintHistory: bool)
    returns (r: Creation)
    requires store.Valid()
    modifies store, rng
    ensures store.Valid()
    ensures r.QueryFailed? <==> old(WorkItemExists(store, project, title, area)).None?
    ensures r.Skipped? <==> old(WorkItemExists(store, project, title, area)) == Some(true)
    ensures !r.Made? ==> unchanged(store) && unchanged(rng)
    ensures r.Made? ==>
      && r.id == old(store.nextId) && store.nextId == r.id + 1 && r.id in store.items
      && store.items == old(store.items)[r.id := store.items[r.id]]
      && store.items[r.id].project == project && store.items[r.id].itemType == itemType
      && store.items[r.id].title == title && store.items[r.id].area == area
      && store.items[r.id].state == (if IsDefaultState(state) then None else Some(state))
      && store.items[r.id].parent == parentId
      && rng.tape == TapeAfterAssignment(state, iterationPath, useSprintHistory, old(rng.tape))
    ensures Wiql.Plain(project) && Wiql.Plain(area) && KeysUnique(old(store.items)) ==>
      KeysUnique(store.items)
  {
    r := CreateWorkItem(store, rng, project, itemType, title, description, area, parentId, state,
                        effort, effortFieldName, iterationPath, useSprintHistory);
  }

  /** One task of a backlog item created in this run: created under that
      backlog item, with the completion override applied, unless its key
      exists. Afterwards its key exists. */
  method GenerateTask(store: Store, rng: Oracle.Random, project: string, team: TeamConfig,
                      useSprintHistory: bool, t: Generator.ProcessTemplate, backlogId: nat,
                      backlog: BacklogItemData, task: TaskData, ghost start: nat)
    returns (ok: bool)
    requires store.Valid() && start <= store.nextId && Placed(store.items, start, t)
    requires backlogId in store.items && start <= backlogId
    requires store.items[backlogId].itemType == Generator.BacklogItemTypeName(t)
    requires store.items[backlogId].title == backlog.title
    requires store.items[backlogId].state == Some(backlog.state)
    modifies store, rng
    ensures store.Valid() && old(store.nextId) <= store.nextId
    ensures Extends(old(store.items), store.items) && Placed(store.items, start, t)
    ensures NewOfTypes(old(store.items), store.items, {"Task"})
    ensures NewUnder(old(store.items), store.items, "Task", backlogId)
    ensures Wiql.Plain(project) && Wiql.Plain(team.areaPath) ==>
      ok && KeyExists(store.items, project, TaskTitle(backlog.title, task.title), team.areaPath)
    ensures (Wiql.Plain(project) && Wiql.Plain(team.areaPath) &&
      !KeyExists(old(store.items), project, TaskTitle(backlog.title, task.title), team.areaPath)) ==>
      old(store.nextId) in store.items
    ensures forall id :: id in store.items && id !in old(store.items) ==> TaskMade(store.items[id], backlog, task)
    ensures Wiql.Plain(project) && Wiql.Plain(team.areaPath) && KeysUnique(old(store.items)) ==>
      KeysUnique(store.items)
  {
    var state, remaining := task.state, task.remainingWork;
    if Sprints.IsCompletedState(backlog.state) {
      state, remaining := "Done", 0;
    }
    var r := CreateTask(store, rng, project, TaskTitle(backlog.title, task.title),
                        task.description, team.areaPath, backlogId, remaining,
                        team.iterationPath, useSprintHistory, state);
    ok := !r.QueryFailed?;
    if r.Made? {
      PlacedAdd(old(store.items), start, t, r.id, store.items[r.id]);
      assert HasKey(store.items[r.id], project, TaskTitle(backlog.title, task.title), team.areaPath);
    }
  }

  /** The tasks of one backlog item created in this run, one after the
      other. Afterwards every task title has its key. */
  method GenerateTasks(store: Store, rng: Oracle.Random, project: string, team: TeamConfig,
                       useSprintHistory: bool, t: Generator.ProcessTemplate, backlogId: nat,
                       backlog: BacklogItemData, tasks: seq<TaskData>, ghost start: nat)
    returns (ok: bool)
    requires store.Valid() && start <= store.nextId && Placed(store.items, start, t)
    requires backlogId in store.items && start <= backlogId
    requires store.items[backlogId].itemType == Generator.BacklogItemTypeName(t)
    requires store.items[backlogId].title == backlog.title
    requires store.items[backlogId].state == Some(backlog.state)
    modifies store, rng
    ensures store.Valid() && old(store.nextId) <= store.nextId
    ensures Extends(old(store.items), store.items) && Placed(store.items, start, t)
    ensures NewOfTypes(old(store.items), store.items, {"Task"})
    ensures NewUnder(old(store.items), store.items, "Task", backlogId)
    ensures MadeFrom(old(store.items), store.items, backlog, tasks)
    ensures Wiql.Plain(project) && Wiql.Plain(team.areaPath) ==>
      ok && TitlesPresent(store.items, project, TaskTitles(backlog.title, tasks), team.areaPath)
    ensures Wiql.Plain(project) && Wiql.Plain(team.areaPath) && KeysUnique(old(store.items)) ==>
      KeysUnique(store.items)
  {
    ok := true;
    ghost var titles := TaskTitles(backlog.title, tasks);
    ghost var plain := Wiql.Plain(project) && Wiql.Plain(team.areaPath);
    for k := 0 to |tasks|
      invariant store.Valid() && old(store.nextId) <= store.nextId
      invariant Extends(old(store.items), store.items) && Placed(store.items, start, t)
      invariant backlogId in store.items && store.items[backlogId] == old(store.items)[backlogId]
      invariant NewOfTypes(old(store.items), store.items, {"Task"})
      invariant NewUnder(old(store.items), store.items, "Task", backlogId)
      invariant MadeFrom(old(store.items), store.items, backlog, tasks)
      invariant plain ==> TitlesPresent(store.items, project, titles[..k], team.areaPath)
      invariant plain && KeysUnique(old(store.items)) ==> KeysUnique(store.items)
    {
      ghost var before := store.items;
      ok := GenerateTask(store, rng, project, team, useSprintHistory, t, backlogId, backlog, tasks[k], start);
      NewJoin(old(store.items), before, store.items, {"Task"}, "Task", backlogId);
      MadeFromStep(old(store.items), before, store.items, backlog, tasks, k);
      if !ok {
        return;
      }
      if plain {
        TitlesPresentStep(before, store.items, project, titles, k, team.areaPath);
      }
    }
  }

  /** The tasks of a backlog item created in this run, when the gate opens
      for its state: drawn, returned in `tasks`, and created under it. When
      the gate stays closed nothing is created. */
  method GenerateTasksIfDue(store: Store, rng: Oracle.Random, project: string, team: TeamConfig,
                            useSprintHistory: bool, t: Generator.ProcessTemplate, backlogId: nat,
                            backlog: BacklogItemData, ghost start: nat)
    returns (ok: bool, ghost tasks: seq<TaskData>)
    requires store.Valid() && start <= store.nextId && Placed(store.items, start, t)
    requires backlogId in store.items && start <= backlogId
    requires store.items[backlogId].itemType == Generator.BacklogItemTypeName(t)
    requires store.items[backlogId].title == backlog.title
    requires store.items[backlogId].state ==
      if IsDefaultState(backlog.state) then None else Some(backlog.state)
    modifies store, rng
    ensures store.Valid() && old(store.nextId) <= store.nextId
    ensures Extends(old(store.items), store.items) && Placed(store.items, start, t)
    ensures NewOfTypes(old(store.items), store.items, {"Task"})
    ensures NewUnder(old(store.items), store.items, "Task", backlogId)
    ensures MadeFrom(old(store.items), store.items, backlog, tasks)
    ensures Wiql.Plain(project) && Wiql.Plain(team.areaPath) ==> ok
    ensures Wiql.Plain(project) && Wiql.Plain(team.areaPath) && KeysUnique(old(store.items)) ==>
      KeysUnique(store.items)
    ensures if TaskGate(backlog.state, Oracle.Draw(old(rng.tape), 0, 100)) then
        && FullDraw(t, tasks)
        && (Wiql.Plain(project) && Wiql.Plain(team.areaPath) ==>
              TitlesPresent(store.items, project, TaskTitles(backlog.title, tasks), team.areaPath))
      else ok && store.items == old(store.items) && store.nextId == old(store.nextId)
  {
    ok, tasks := true, [];
    var create := ShouldCreateTasks(backlog.state, rng);
    if create {
      var drawn := Generator.GetTasksForBacklogItem(t, backlog.title, rng);
      tasks := drawn;
      ok := GenerateTasks(store, rng, project, team, useSprintHistory, t, backlogId, backlog, drawn, start);
    }
  }

  /** One backlog item under a feature created in this run: created under
      that feature unless its key exists, then, when the gate opens for its
      state, the tasks drawn for it (returned in `tasks`). When the key
      existed nothing changes and nothing is drawn. */
  method GenerateBacklogItem(store: Store, rng: Oracle.Random, project: string, team: TeamConfig,
                             useSprintHistory: bool, t: Generator.ProcessTemplate, ghost cat: Generator.Catalogue,
                             featureId: nat, data: BacklogItemData, ghost start: nat)
    returns (ok: bool, ghost tasks: seq<TaskData>)
    requires store.Valid() && start <= store.nextId && Placed(store.items, start, t)
    requires featureId in store.items && start <= featureId
    requires store.items[featureId].itemType == "Feature"
    modifies store, rng
    ensures store.Valid() && old(store.nextId) <= store.nextId
    ensures Extends(old(store.items), store.items) && Placed(store.items, start, t)
    ensures NewOfTypes(old(store.items), store.items, {Generator.BacklogItemTypeName(t), "Task"})
    ensures NewUnder(old(store.items), store.items, Generator.BacklogItemTypeName(t), featureId)
    ensures NewUnder(old(store.items), store.items, "Task", old(store.nextId))
    ensures Wiql.Plain(project) && Wiql.Plain(team.areaPath) ==>
      ok && KeyExists(store.items, project, data.title, team.areaPath)
      && Descended(old(store.items), store.items, project, t, cat, team)
    ensures Wiql.Plain(project) && Wiql.Plain(team.areaPath) && KeysUnique(old(store.items)) ==>
      KeysUnique(store.items)
    ensures (Wiql.Plain(project) && Wiql.Plain(team.areaPath) &&
      KeyExists(old(store.items), project, data.title, team.areaPath)) ==>
      unchanged(store) && unchanged(rng)
    ensures (Wiql.Plain(project) && Wiql.Plain(team.areaPath) &&
      !KeyExists(old(store.items), project, data.title, team.areaPath)) ==>
      var id := old(store.nextId);
      var tape := TapeAfterAssignment(data.state, team.iterationPath, useSprintHistory, old(rng.tape));
      && id in store.items
      && store.items[id].itemType == Generator.BacklogItemTypeName(t)
      && store.items[id].title == data.title
      && store.items[id].parent == Some(featureId)
      && store.items[id].state == (if IsDefaultState(data.state) then None else Some(data.state))
      && MadeFrom(old(store.items)[id := store.items[id]], store.items, data, tasks)
      && (if TaskGate(data.state, Oracle.Draw(tape, 0, 100)) then
            && FullDraw(t, tasks)
            && TitlesPresent(store.items, project, TaskTitles(data.title, tasks), team.areaPath)
          else store.nextId == id + 1)
  {
    tasks := [];
    var r := CreateLevelItem(store, rng, project, Generator.BacklogItemTypeName(t), data.title,
                             data.description, team.areaPath, Some(featureId), data.state,
                             Some(data.storyPoints), Generator.EffortFieldName(t),
                             team.iterationPath, useSprintHistory);
    if r.QueryFailed? {
      return false, tasks;
    }
    ok := true;
    if r.Made? {
      PlacedAdd(old(store.items), start, t, r.id, store.items[r.id]);
      assert HasKey(store.items[r.id], project, data.title, team.areaPath);
      ghost var created := store.items;
      ghost var item := created[r.id];
      ok, tasks := GenerateTasksIfDue(store, rng, project, team, useSprintHistory, t, r.id, data, start);
      NewJoin(old(store.items), created, store.items, {Generator.BacklogItemTypeName(t), "Task"}, "Task", r.id);
      NewJoin(old(store.items), created, store.items, {Generator.BacklogItemTypeName(t), "Task"},
              Generator.BacklogItemTypeName(t), featureId);
      KeyExistsExtends(created, store.items, project, data.title, team.areaPath);
      if Wiql.Plain(project) && Wiql.Plain(team.areaPath) {
        DescendedLowerLevels(created, store.items, project, t, cat, team);
        if Sprints.IsCompletedState(data.state) {
          assert TitlesPresent(store.items, project, TaskTitles(item.title, tasks), team.areaPath);
        }
        DescendedAfterAdded(old(store.items), store.items, r.id, item, project, t, cat, team);
      }
    }
  }

  /** The backlog items of one feature created in this run, one after the other. */
  method GenerateBacklogItems(store: Store, rng: Oracle.Random, project: string, team: TeamConfig,
                              useSprintHistory: bool, t: Generator.ProcessTemplate, ghost cat: Generator.Catalogue,
                              featureId: nat, items: seq<BacklogItemData>, ghost start: nat)
    returns (ok: bool)
    requires store.Valid() && start <= store.nextId && Placed(store.items, start, t)
    requires featureId in store.items && start <= featureId
    requires store.items[featureId].itemType == "Feature"
    modifies store, rng
    ensures store.Valid() && old(store.nextId) <= store.nextId
    ensures Extends(old(store.items), store.items) && Placed(store.items, start, t)
    ensures NewOfTypes(old(store.items), store.items, {Generator.BacklogItemTypeName(t), "Task"})
    ensures NewUnder(old(store.items), store.items, Generator.BacklogItemTypeName(t), featureId)
    ensures Wiql.Plain(project) && Wiql.Plain(team.areaPath) ==>
      ok && TitlesPresent(store.items, project, Generator.BacklogTitles(items), team.areaPath)
      && Descended(old(store.items), store.items, project, t, cat, team)
    ensures Wiql.Plain(project) && Wiql.Plain(team.areaPath) && KeysUnique(old(store.items)) ==>
      KeysUnique(store.items)
  {
    ok := true;
    ghost var titles := Generator.BacklogTitles(items);
    ghost var plain := Wiql.Plain(project) && Wiql.Plain(team.areaPath);
    ghost var types := {Generator.BacklogItemTypeName(t), "Task"};
    for k := 0 to |items|
      invariant store.Valid() && old(store.nextId) <= store.nextId
      invariant Extends(old(store.items), store.items) && Placed(store.items, start, t)
      invariant NewOfTypes(old(store.items), store.items, types)
      invariant NewUnder(old(store.items), store.items, Generator.BacklogItemTypeName(t), featureId)
      invariant plain ==> ok && TitlesPresent(store.items, project, titles[..k], team.areaPath)
      invariant plain ==> Descended(old(store.items), store.items, project, t, cat, team)
      invariant plain && KeysUnique(old(store.items)) ==> KeysUnique(store.items)
    {
      ghost var before := store.items;
      ghost var tasks;
      ok, tasks := GenerateBacklogItem(store, rng, project, team, useSprintHistory, t, cat, featureId, items[k], start);
      NewJoin(old(store.items), before, store.items, types, Generator.BacklogItemTypeName(t), featureId);
      if !ok {
        return;
      }
      if plain {
        TitlesPresentStep(before, store.items, project, titles, k, team.areaPath);
        DescendedJoin(old(store.items), before, store.items, project, t, cat, team);
      }
    }
    assert titles[..|items|] == titles;
  }

  /** The backlog items of a feature created in this run: the listed ones or
      the generated ones, each created under it. Afterwards every title the
      feature should have has its key, and every backlog item created in a
      finished state has the keys of a full draw of tasks. */
  method GenerateFeatureChildren(store: Store, rng: Oracle.Random, project: string, team: TeamConfig,
                                 useSprintHistory: bool, t: Generator.ProcessTemplate, cat: Generator.Catalogue,
                                 featureId: nat, featureTitle: string, ghost start: nat)
    returns (ok: bool)
    requires store.Valid() && start <= store.nextId && Placed(store.items, start, t)
    requires featureId in store.items && start <= featureId
    requires store.items[featureId].itemType == "Feature"
    modifies store, rng
    ensures store.Valid() && old(store.nextId) <= store.nextId
    ensures Extends(old(store.items), store.items) && Placed(store.items, start, t)
    ensures NewOfTypes(old(store.items), store.items, {Generator.BacklogItemTypeName(t), "Task"})
    ensures NewUnder(old(store.items), store.items, Generator.BacklogItemTypeName(t), featureId)
    ensures Wiql.Plain(project) && Wiql.Plain(team.areaPath) ==>
      ok && TitlesPresent(store.items, project,
              Generator.ExpectedBacklogTitles(t, cat, team.name, featureTitle), team.areaPath)
      && Descended(old(store.items), store.items, project, t, cat, team)
    ensures Wiql.Plain(project) && Wiql.Plain(team.areaPath) && KeysUnique(old(store.items)) ==>
      KeysUnique(store.items)
  {
    var items := Generator.GetBacklogItemsForFeature(t, cat, team.name, featureTitle, rng);
    ok := GenerateBacklogItems(store, rng, project, team, useSprintHistory, t, cat, featureId, items, start);
  }

  /** One feature under an epic created in this run: created under that
      epic unless its key exists, then its backlog items. When the key
      existed nothing changes and nothing is drawn. */
  method GenerateFeature(store: Store, rng: Oracle.Random, project: string, team: TeamConfig,
                         useSprintHistory: bool, t: Generator.ProcessTemplate, cat: Generator.Catalogue,
                         epicId: nat, data: FeatureData, ghost start: nat)
    returns (ok: bool)
    requires store.Valid() && start <= store.nextId && Placed(store.items, start, t)
    requires epicId in store.items && start <= epicId
    requires store.items[epicId].itemType == "Epic"
    modifies store, rng
    ensures store.Valid() && old(store.nextId) <= store.nextId
    ensures Extends(old(store.items), store.items) && Placed(store.items, start, t)
    ensures NewOfTypes(old(store.items), store.items, {"Feature", Generator.BacklogItemTypeName(t), "Task"})
    ensures NewUnder(old(store.items), store.items, "Feature", epicId)
    ensures Wiql.Plain(project) && Wiql.Plain(team.areaPath) ==>
      ok && KeyExists(store.items, project, data.title, team.areaPath)
      && Descended(old(store.items), store.items, project, t, cat, team)
    ensures Wiql.Plain(project) && Wiql.Plain(team.areaPath) && KeysUnique(old(store.items)) ==>
      KeysUnique(store.items)
    ensures (Wiql.Plain(project) && Wiql.Plain(team.areaPath) &&
      KeyExists(old(store.items), project, data.title, team.areaPath)) ==>
      unchanged(store) && unchanged(rng)
    ensures (Wiql.Plain(project) && Wiql.Plain(team.areaPath) &&
      !KeyExists(old(store.items), project, data.title, team.areaPath)) ==>
      && old(store.nextId) in store.items
      && store.items[old(store.nextId)].itemType == "Feature"
      && store.items[old(store.nextId)].title == data.title
      && store.items[old(store.nextId)].parent == Some(epicId)
  {
    var r := CreateLevelItem(store, rng, project, "Feature", data.title, data.description,
                             team.areaPath, Some(epicId), data.state, None, "",
                             team.iterationPath, useSprintHistory);
    if r.QueryFailed? {
      return false;
    }
    ok := true;
    if r.Made? {
      PlacedAdd(old(store.items), start, t, r.id, store.items[r.id]);
      assert HasKey(store.items[r.id], project, data.title, team.areaPath);
      ghost var created := store.items;
      ghost var item := created[r.id];
      ok := GenerateFeatureChildren(store, rng, project, team, useSprintHistory, t, cat, r.id, data.title, start);
      KeyExistsExtends(created, store.items, project, data.title, team.areaPath);
      NewAfterAdded(old(store.items), store.items, r.id, item, {Generator.BacklogItemTypeName(t), "Task"}, epicId);
      assert {Generator.BacklogItemTypeName(t), "Task"} + {"Feature"} == {"Feature", Generator.BacklogItemTypeName(t), "Task"};
      if Wiql.Plain(project) && Wiql.Plain(team.areaPath) {
        DescendedAfterAdded(old(store.items), store.items, r.id, item, project, t, cat, team);
      }
    }
  }

  /** The features of one epic created in this run, one after the other. */
  method GenerateFeatures(store: Store, rng: Oracle.Random, project: string, team: TeamConfig,
                          useSprintHistory: bool, t: Generator.ProcessTemplate, cat: Generator.Catalogue,
                          epicId: nat, features: seq<FeatureData>, ghost start: nat)
    returns (ok: bool)
    requires store.Valid() && start <= store.nextId && Placed(store.items, start, t)
    requires epicId in store.items && start <= epicId
    requires store.items[epicId].itemType == "Epic"
    modifies store, rng
    ensures store.Valid() && old(store.nextId) <= store.nextId
    ensures Extends(old(store.items), store.items) && Placed(store.items, start, t)
    ensures NewOfTypes(old(store.items), store.items, {"Feature", Generator.BacklogItemTypeName(t), "Task"})
    ensures NewUnder(old(store.items), store.items, "Feature", epicId)
    ensures Wiql.Plain(project) && Wiql.Plain(team.areaPath) ==>
      ok && TitlesPresent(store.items, project, Generator.FeatureTitles(features), team.areaPath)
      && Descended(old(store.items), store.items, project, t, cat, team)
    ensures Wiql.Plain(project) && Wiql.Plain(team.areaPath) && KeysUnique(old(store.items)) ==>
      KeysUnique(store.items)
  {
    ok := true;
    ghost var titles := Generator.FeatureTitles(features);
    ghost var plain := Wiql.Plain(project) && Wiql.Plain(team.areaPath);
    ghost var types := {"Feature", Generator.BacklogItemTypeName(t), "Task"};
    for k := 0 to |features|
      invariant store.Valid() && old(store.nextId) <= store.nextId
      invariant Extends(old(store.items), store.items) && Placed(store.items, start, t)
      invariant NewOfTypes(old(store.items), store.items, types)
      invariant NewUnder(old(store.items), store.items, "Feature", epicId)
      invariant plain ==> ok && TitlesPresent(store.items, project, titles[..k], team.areaPath)
      invariant plain ==> Descended(old(store.items), store.items, project, t, cat, team)
      invariant plain && KeysUnique(old(store.items)) ==> KeysUnique(store.items)
    {
      ghost var before := store.items;
      ok := GenerateFeature(store, rng, project, team, useSprintHistory, t, cat, epicId, features[k], start);
      NewJoin(old(store.items), before, store.items, types, "Feature", epicId);
      if !ok {
        return;
      }
      if plain {
        TitlesPresentStep(before, store.items, project, titles, k, team.areaPath);
        DescendedJoin(old(store.items), before, store.items, project, t, cat, team);
      }
    }
    assert titles[..|features|] == titles;
  }

  /** One epic of a team: created unless its key exists, then its features.
      Afterwards the epic's key exists; when it existed before, nothing
      changed and no random value was drawn. */
  method GenerateEpic(store: Store, rng: Oracle.Random, project: string, team: TeamConfig,
                      useSprintHistory: bool, t: Generator.ProcessTemplate, cat: Generator.Catalogue,
                      data: EpicData, ghost start: nat)
    returns (ok: bool)
    requires store.Valid() && start <= store.nextId && Placed(store.items, start, t)
    modifies store, rng
    ensures store.Valid() && old(store.nextId) <= store.nextId
    ensures Extends(old(store.items), store.items) && Placed(store.items, start, t)
    ensures Wiql.Plain(project) && Wiql.Plain(team.areaPath) ==>
      ok && KeyExists(store.items, project, data.title, team.areaPath)
      && Descended(old(store.items), store.items, project, t, cat, team)
    ensures Wiql.Plain(project) && Wiql.Plain(team.areaPath) && KeysUnique(old(store.items)) ==>
      KeysUnique(store.items)
    ensures (Wiql.Plain(project) && Wiql.Plain(team.areaPath) &&
      KeyExists(old(store.items), project, data.title, team.areaPath)) ==>
      unchanged(store) && unchanged(rng)
    ensures (Wiql.Plain(project) && Wiql.Plain(team.areaPath) &&
      !KeyExists(old(store.items), project, data.title, team.areaPath)) ==>
      && old(store.nextId) in store.items
      && store.items[old(store.nextId)].itemType == "Epic"
      && store.items[old(store.nextId)].title == data.title
      && store.items[old(store.nextId)].parent == None
  {
    var r := CreateLevelItem(store, rng, project, "Epic", data.title, data.description,
                             team.areaPath, None, data.state, None, "",
                             team.iterationPath, useSprintHistory);
    if r.QueryFailed? {
      return false;
    }
    ok := true;
    if r.Made? {
      PlacedAdd(old(store.items), start, t, r.id, store.items[r.id]);
      assert HasKey(store.items[r.id], project, data.title, team.areaPath);
      ghost var created := store.items;
      var features := Generator.GetFeaturesForEpic(t, cat, team.name, data.title);
      ghost var item := created[r.id];
      ok := GenerateFeatures(store, rng, project, team, useSprintHistory, t, cat, r.id, features, start);
      KeyExistsExtends(created, store.items, project, data.title, team.areaPath);
      if Wiql.Plain(project) && Wiql.Plain(team.areaPath) {
        DescendedAfterAdded(old(store.items), store.items, r.id, item, project, t, cat, team);
      }
    }
  }

  /** The epics of one team, one after the other. Afterwards every epic key
      of the team exists; when they all existed before, nothing is created
      and no random value is drawn. */
  method GenerateTeam(store: Store, rng: Oracle.Random, project: string, team: TeamConfig,
                      useSprintHistory: bool, t: Generator.ProcessTemplate, cat: Generator.Catalogue,
                      ghost start: nat)
    returns (ok: bool)
    requires store.Valid() && start <= store.nextId && Placed(store.items, start, t)
    modifies store, rng
    ensures store.Valid() && old(store.nextId) <= store.nextId
    ensures Extends(old(store.items), store.items) && Placed(store.items, start, t)
    ensures Wiql.Plain(project) && Wiql.Plain(team.areaPath) ==>
      ok && EpicsPresent(store.items, project, Generator.GetEpicsForTeam(cat, team.name), team.areaPath)
      && Descended(old(store.items), store.items, project, t, cat, team)
    ensures Wiql.Plain(project) && Wiql.Plain(team.areaPath) && KeysUnique(old(store.items)) ==>
      KeysUnique(store.items)
    ensures (Wiql.Plain(project) && Wiql.Plain(team.areaPath) &&
      EpicsPresent(old(store.items), project, Generator.GetEpicsForTeam(cat, team.name), team.areaPath)) ==>
      unchanged(store) && unchanged(rng)
  {
    ok := true;
    var epics := Generator.GetEpicsForTeam(cat, team.name);
    ghost var titles := EpicTitles(epics);
    ghost var plain := Wiql.Plain(project) && Wiql.Plain(team.areaPath);
    for k := 0 to |epics|
      invariant store.Valid() && old(store.nextId) <= store.nextId
      invariant Extends(old(store.items), store.items) && Placed(store.items, start, t)
      invariant plain ==> ok && TitlesPresent(store.items, project, titles[..k], team.areaPath)
      invariant plain ==> Descended(old(store.items), store.items, project, t, cat, team)
      invariant plain && KeysUnique(old(store.items)) ==> KeysUnique(store.items)
      invariant plain && EpicsPresent(old(store.items), project, epics, team.areaPath) ==>
        unchanged(store) && unchanged(rng)
    {
      ghost var before := store.items;
      ok := GenerateEpic(store, rng, project, team, useSprintHistory, t, cat, epics[k], start);
      if !ok {
        return;
      }
      if plain {
        TitlesPresentStep(before, store.items, project, titles, k, team.areaPath);
        DescendedJoin(old(store.items), before, store.items, project, t, cat, team);
      }
    }
    assert titles[..|epics|] == titles;
  }

  /** The teams of a run, one after the other. */
  method GenerateTeams(store: Store, rng: Oracle.Random, project: string, teams: seq<TeamConfig>,
                       useSprintHistory: bool, t: Generator.ProcessTemplate, cat: Generator.Catalogue,
                       ghost start: nat)
    returns (ok: bool)
    requires store.Valid() && start <= store.nextId && Placed(store.items, start, t)
    modifies store, rng
    ensures store.Valid() && old(store.nextId) <= store.nextId
    ensures Extends(old(store.items), store.items) && Placed(store.items, start, t)
    ensures Wiql.Plain(project) && TeamsPlain(teams) ==>
      ok && TeamsEpicsPresent(store.items, project, teams, cat)
      && DescendedForTeams(old(store.items), store.items, project, t, cat, teams)
    ensures Wiql.Plain(project) && TeamsPlain(teams) && KeysUnique(old(store.items)) ==>
      KeysUnique(store.items)
    ensures (Wiql.Plain(project) && TeamsPlain(teams) &&
      TeamsEpicsPresent(old(store.items), project, teams, cat)) ==>
      unchanged(store) && unchanged(rng)
  {
    ok := true;
    ghost var plain := Wiql.Plain(project) && TeamsPlain(teams);
    for k := 0 to |teams|
      invariant store.Valid() && old(store.nextId) <= store.nextId
      invariant Extends(old(store.items), store.items) && Placed(store.items, start, t)
      invariant plain ==> ok && TeamsEpicsPresent(store.items, project, teams[..k], cat)
      invariant plain ==> DescendedForTeams(old(store.items), store.items, project, t, cat, teams)
      invariant plain && KeysUnique(old(store.items)) ==> KeysUnique(store.items)
      invariant plain && TeamsEpicsPresent(old(store.items), project, teams, cat) ==>
        unchanged(store) && unchanged(rng)
    {
      ghost var before := store.items;
      ok := GenerateTeam(store, rng, project, teams[k], useSprintHistory, t, cat, start);
      if !ok {
        return;
      }
      if plain {
        TeamsStep(old(store.items), before, store.items, project, t, cat, teams, k);
      }
    }
    assert teams[..|teams|] == teams;
  }

  /** `GenerateFullBacklog`: an unsupported template aborts before anything
      is written. Every item the run creates is placed under an item the run
      created; keys stay unique; after a run every epic key of every team
      exists, every epic the run created has the keys of all its features
      every feature it created the keys of all its backlog items, and every
      backlog item it created in a finished state the keys of a full draw of
      tasks; a run that finds all epic keys present changes nothing. */
  method GenerateFullBacklog(store: Store, rng: Oracle.Random, config: Configuration,
                             catalogues: Generator.ProcessTemplate -> Generator.Catalogue)
    returns (ok: bool)
    requires store.Valid()
    modifies store, rng
    ensures Generator.ParseTemplate(config.processTemplate).None? ==>
      !ok && unchanged(store) && unchanged(rng)
    ensures store.Valid() && old(store.nextId) <= store.nextId
    ensures Extends(old(store.items), store.items)
    ensures Generator.ParseTemplate(config.processTemplate).Some? ==>
      Placed(store.items, old(store.nextId), Generator.ParseTemplate(config.processTemplate).value)
    ensures AllPlain(config) && KeysUnique(old(store.items)) ==> KeysUnique(store.items)
    ensures AllPlain(config) && Generator.ParseTemplate(config.processTemplate).Some? ==>
      var t := Generator.ParseTemplate(config.processTemplate).value;
      && ok && AllEpicsPresent(store.items, config, catalogues(t))
      && DescendedForTeams(old(store.items), store.items, config.projectName, t, catalogues(t), config.teams)
    ensures (AllPlain(config) && Generator.ParseTemplate(config.processTemplate).Some? &&
      AllEpicsPresent(old(store.items), config, catalogues(Generator.ParseTemplate(config.processTemplate).value))) ==>
      unchanged(store) && unchanged(rng)
  {
    var parsed := Generator.ParseTemplate(config.processTemplate);
    if parsed.None? {
      return false;
    }
    ok := GenerateTeams(store, rng, config.projectName, config.teams, config.useSprintHistory,
                        parsed.value, catalogues(parsed.value), store.nextId);
  }

  /** Idempotence of `GenerateFullBacklog`: once a run has completed, a
      second run with the same configuration and catalogue finds every epic
      key present and changes nothing in the store, not even its call log. */
  method RegenerateIsNoOp(store: Store, rng: Oracle.Random, config: Configuration,
                          catalogues: Generator.ProcessTemplate -> Generator.Catalogue)
    returns (first: bool, second: bool, ghost afterFirst: map<nat, WorkItem>, ghost callsAfterFirst: seq<Call>)
    requires store.Valid()
    requires AllPlain(config) && Generator.ParseTemplate(config.processTemplate).Some?
    modifies store, rng
    ensures first && second
    ensures Extends(old(store.items), afterFirst)
    ensures KeysUnique(old(store.items)) ==> KeysUnique(afterFirst)
    ensures store.items == afterFirst && store.calls == callsAfterFirst
  {
    first := GenerateFullBacklog(store, rng, config, catalogues);
    afterFirst, callsAfterFirst := store.items, store.calls;
    second := GenerateFullBacklog(store, rng, config, catalogues);
  }
}
