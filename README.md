# Work-item backlog generator: a Dafny model

This project models the core of a demo-data generator for a work-item
tracking store. The generator pushes a four-level tree into the store:
Epic, then Feature, then the template's backlog item, then Task. It uses
the vocabulary of one of four process templates: Scrum, Agile, CMMI or Basic.
It can also tear everything down again.

The model covers these parts:

- **Idempotent creation.** `CreateWorkItem` and `CreateTask` look an item up by the key
  (project, title, area path). Only the title is escaped, with quotes doubled as
  WIQL requires. When the key exists, the item is skipped. Otherwise the
  item is created, then gets a state update if its state is not an initial
  state, then a sprint assignment if sprint history is on, then a link to its parent.
- **The full run.** `GenerateFullBacklog` walks teams, epics, features, backlog items and
  tasks. It descends only below items it created in this run. Tasks are
  gated on the backlog item's state. Tasks under finished work are forced
  to "Done" with no remaining work. Every task title carries its parent's title as a prefix.
- **State to sprint mapping** (`GetSprintForState`) and the two five-sprint calendars.
- **Cleanup.** The cleanup run lists the items under the teams' area paths and fetches
  their details in batches of at most 200. It asks for confirmation, then
  deletes the items one by one, tasks first, counting successes and failures.
- **Content providers.** The per-template vocabulary (type name, effort field,
  valid-state sets) is modelled. So are the generated fallback backlog items, Basic's
  "Phase" features and the random task breakdown.

The remote store is the class `TrackingStore.Store`. It holds a map from id
to item, the next id to hand out, and a log of the calls it
received other than the existence and listing queries. `System.Random` is the class `Oracle.Random`. Its `Next(lo, hi)`
consumes one value from an injected tape and answers a value in `[lo, hi)`.
A *full draw* of tasks is a possible answer of the task breakdown: a
count in the template's range of task templates with pairwise distinct
titles, so below one backlog item it gives that many distinct task keys.
The literal epic, feature and backlog tables form an opaque
`Generator.Catalogue` value. Its lookups answer `None` when no literal branch
matches. Only the fallback branches have logic, and the model states that logic.

Two behaviours of the code are kept as written:

- The completion override always writes "Done", even under a CMMI
  "Closed" or "Resolved" backlog item (`Backlog.GenerateTasks`).
- The deletion rank names only "Product Backlog Item". User Story,
  Requirement and Issue items share rank 1 with epics, so for the Agile, CMMI
  and Basic templates they are deleted together with the epics and not before
  the features (`Cleanup.Rank`).

## Model

| member | source | states |
|---|---|---|
| Oracle.Draw | AdoWorkItemGenerator/WorkItemGenerators/BaseWorkItemGenerator.cs:9 | every answer of the injected random source lies in `[lo, hi)` |
| Oracle.Random.Next | AdoWorkItemGenerator/WorkItemGenerators/BaseWorkItemGenerator.cs:43-44 | `Next(lo, hi)` answers a value in `[lo, hi)` and consumes exactly one draw |
| WorkItemData.RecordDefaults | AdoWorkItemGenerator/WorkItemGenerators/BaseWorkItemGenerator.cs:59-87 | records built without initialisers have empty texts and zero numbers; epics, features and backlog items start "New", tasks "To Do" |
| Wiql.Escape | AdoWorkItemGenerator/Program.cs:596 | escaping never shortens a title and leaves a quote-free title as it is |
| Wiql.DecodeEscape | AdoWorkItemGenerator/Program.cs:588-601 | the escaped title, read back as a query literal, is exactly the title (round trip) |
| Wiql.EscapeDecode | AdoWorkItemGenerator/Program.cs:588-601 | every well-formed literal is the escape of the text it reads as (the other direction of the round trip) |
| Wiql.DecodeUnescaped | AdoWorkItemGenerator/Program.cs:594-597 | an unescaped project or area path is read as written if and only if it holds no quote |
| TrackingStore.KeysUniqueAdd | AdoWorkItemGenerator/Program.cs:204-209 | adding an item whose (project, title, area) key is free keeps every key unique |
| TrackingStore.KeyExistsExtends | AdoWorkItemGenerator/Program.cs:204-209 | a key that exists keeps existing while the store only gains items |
| TrackingStore.MatchingDescending | AdoWorkItemGenerator/Program.cs:483-499 | the listing returns exactly the project's items under one of the area roots, each once, largest id first |
| TrackingStore.Store.KeyQuery | AdoWorkItemGenerator/Program.cs:590-601 | the existence query answers if and only if all three literals are well formed; true means an item with the decoded key exists, false that none does |
| TrackingStore.Store.UnderAreasQuery | AdoWorkItemGenerator/Program.cs:483-499 | the listing answers if and only if there is an area root and every literal is well formed; it lists ids of held items of the project, strictly descending |
| TrackingStore.Store.Create | AdoWorkItemGenerator/Program.cs:243 | creation hands out a fresh id, stores the submitted fields in the initial state with no iteration and no parent, and logs one call |
| TrackingStore.Store.SetState | AdoWorkItemGenerator/Program.cs:604-617 | the state update changes only that item's state and logs one call |
| TrackingStore.Store.SetIteration | AdoWorkItemGenerator/Program.cs:648-661 | the sprint assignment changes only that item's iteration path and logs one call |
| TrackingStore.Store.Link | AdoWorkItemGenerator/Program.cs:338-358 | the hierarchy-reverse link sets only the child's parent and logs one call |
| TrackingStore.Store.Fetch | AdoWorkItemGenerator/Program.cs:519 | a batch fetch succeeds if and only if it asks for at most 200 held ids, and answers their details in request order |
| TrackingStore.Store.Delete | AdoWorkItemGenerator/Program.cs:560 | a delete succeeds if and only if the item is held and not refused; only then is it removed |
| Sprints.SprintForState | AdoWorkItemGenerator/Program.cs:738-759 | finished states (Done, Closed, Resolved) map to Sprint 1, 2 or 3; Committed, Active, In Progress and Doing map to exactly Sprint 4; any other state maps to the project root |
| Sprints.SprintForStateClassifies | AdoWorkItemGenerator/Program.cs:738-759 | both directions: the path is the project root if and only if the state is neither finished nor in progress, and Sprint 4 if and only if it is in progress |
| Sprints.GetSprintForState | AdoWorkItemGenerator/Program.cs:738-759 | the method answers the mapping and draws from the random source only for finished states |
| SprintCalendar.CalendarShape | AdoWorkItemGenerator/Program.cs:630-634 | both calendars are chronological; Sprints 1-3 are past, Sprint 4 holds today and Sprint 5 lies ahead; the displayed Sprint 5 ends one day before the created one (day 21 against day 22) |
| SprintCalendar.SprintsOfStatesExist | AdoWorkItemGenerator/Program.cs:675-679 | every sprint the state mapping assigns is a created sprint: a past one for finished work, the one holding today for work in progress |
| ScrumTemplate.Vocabulary | AdoWorkItemGenerator/WorkItemGenerators/ScrumWorkItemGenerator.cs:11-18 | feature states exclude "Done"; task states are exactly {To Do, In Progress, Done, Removed}; six task templates with distinct titles cover any drawn count |
| CmmiTemplate.Vocabulary | AdoWorkItemGenerator/WorkItemGenerators/CmmiWorkItemGenerator.cs:11-18 | all four state sets are {Proposed, Active, Resolved, Closed}; eight distinct task templates |
| AgileTemplate.Vocabulary | WorkItemGenerator/AdoWorkItemGenerator/WorkItemGenerators/AgileWorkItemGenerator.cs:11-18 | task states are exactly {To Do, In Progress, Done}; backlog states include "Removed"; five distinct task templates |
| BasicTemplate.Vocabulary | WorkItemGenerator/AdoWorkItemGenerator/WorkItemGenerators/BasicWorkItemGenerator.cs:11-18 | all four state sets are {To Do, Doing, Done}; four distinct task templates |
| BasicTemplate.PhaseFeatures | WorkItemGenerator/AdoWorkItemGenerator/WorkItemGenerators/BasicWorkItemGenerator.cs:60-64 | an unlisted epic gets exactly two features, "{epic} - Phase 1" and "{epic} - Phase 2", with distinct titles, both "To Do" |
| Generator.ParseTemplate | AdoWorkItemGenerator/Program.cs:368-375 | the selector answers a template whose lower-cased name equals the lower-cased input, and answers none only when no template's name matches |
| Generator.ParseTemplateName | AdoWorkItemGenerator/Program.cs:368-375 | the template selector, compared lower-cased, selects each template by its own name |
| Generator.BacklogItemTypeName | AdoWorkItemGenerator/WorkItemGenerators/ScrumWorkItemGenerator.cs:12 | the backlog-level type name of every template differs from Epic, Feature and Task |
| Generator.EffortFieldName | AdoWorkItemGenerator/WorkItemGenerators/CmmiWorkItemGenerator.cs:13 | every template names a non-empty effort field, so a backlog item's effort is always written |
| Generator.TaskTemplatesFit | AdoWorkItemGenerator/WorkItemGenerators/ScrumWorkItemGenerator.cs:247-258 | in every template the count range is non-empty and its largest value never exceeds the number of distinct task templates |
| Generator.GetEpicsForTeam | AdoWorkItemGenerator/WorkItemGenerators/ScrumWorkItemGenerator.cs:20-52 | "Frontend" gets the frontend epics and every other team name the backend list |
| Generator.GetFeaturesForEpic | WorkItemGenerator/AdoWorkItemGenerator/WorkItemGenerators/BasicWorkItemGenerator.cs:40-65 | a listed epic gets its literal features; an unlisted Basic epic gets the two phases |
| Generator.DefaultBacklogTitlesDistinct | AdoWorkItemGenerator/WorkItemGenerators/BaseWorkItemGenerator.cs:41 | generated backlog items with different indices get different titles |
| Generator.GenerateDefaultBacklogItems | AdoWorkItemGenerator/WorkItemGenerators/BaseWorkItemGenerator.cs:31-49 | exactly `count` items; item i is titled "{feature} - Implementation Part {i+1}"; titles pairwise distinct; the description is fixed; story points in {3, 5, 8, 13}; states valid for the template |
| Generator.GetBacklogItemsForFeature | AdoWorkItemGenerator/WorkItemGenerators/ScrumWorkItemGenerator.cs:241 | a listed feature gets its literal items with no draw; an unlisted one gets the template's default count (3, or 2 for Basic) of generated items |
| Generator.ShuffleTake | AdoWorkItemGenerator/WorkItemGenerators/ScrumWorkItemGenerator.cs:258 | picks exactly min(count, pool size) templates from the pool, with distinct titles when the pool has them |
| Generator.DrawTask | AdoWorkItemGenerator/WorkItemGenerators/ScrumWorkItemGenerator.cs:262-271 | a drawn task has a valid task state, and no remaining work exactly when that state is the template's finished state, else 1 to 8 hours |
| Generator.GetTasksForBacklogItem | AdoWorkItemGenerator/WorkItemGenerators/ScrumWorkItemGenerator.cs:244-275 | the task count lies in the template's range; titles are distinct and taken from the templates; every state is valid; remaining work is 0 if and only if the state is finished, else in [1, 8] |
| ItemCreation.WorkItemExists | AdoWorkItemGenerator/Program.cs:588-601 | the lookup matches on project, exact title and area path; with quote-free project and area it answers whether the key exists; a quote in either makes the query malformed or a lookup of other text |
| ItemCreation.CompletedNotDefault | AdoWorkItemGenerator/Program.cs:246 | a finished state is never an initial state, so finished work always gets its state update |
| ItemCreation.EffortNumbers | AdoWorkItemGenerator/Program.cs:233-241 | the effort field is written if and only if there is an effort and a non-empty field name |
| ItemCreation.Submit | AdoWorkItemGenerator/Program.cs:243-264 | the create call is followed, in order, by the state update, the sprint assignment and the parent link, each only when due; keys stay unique when the key was free |
| ItemCreation.CreateWorkItem | AdoWorkItemGenerator/Program.cs:189-267 | an existing key gives a skip with the store and the random source untouched; otherwise the item is created, its state updated if and only if it is not New, To Do or Proposed, its sprint assigned if and only if history is on and an iteration path is set, and linked if and only if a parent is given |
| ItemCreation.CreateTask | AdoWorkItemGenerator/Program.cs:269-336 | the same skip; otherwise a Task is created with its remaining work, its state updated if and only if it is not "To Do", and always linked to its parent |
| Backlog.TaskGate | AdoWorkItemGenerator/Program.cs:436-439 | tasks always follow under a finished backlog item, never under an initial one, and otherwise if and only if the draw is below 50 |
| Backlog.ShouldCreateTasks | AdoWorkItemGenerator/Program.cs:436-439 | the method answers the gate and draws only when the state is neither finished nor initial |
| Backlog.TaskTitle | AdoWorkItemGenerator/Program.cs:458 | a task's title is the backlog item's title, ": ", and the template title |
| Backlog.TaskTitlesDistinct | AdoWorkItemGenerator/Program.cs:457-458 | different template titles under one backlog item give different task titles |
| Backlog.TitlesPresentStep | AdoWorkItemGenerator/Program.cs:445-466 | once the keys of the first k requested titles exist and a step that only adds items makes the next one exist, the keys of the first k+1 exist |
| Backlog.NewAfterAdded | AdoWorkItemGenerator/Program.cs:414-421 | an item created under a parent, followed by lower levels only, leaves as new items that one's type (all under the parent) and the lower types |
| Backlog.DescendedAfterAdded | AdoWorkItemGenerator/Program.cs:407-424 | an item created in this run whose children all exist, followed by a walk that went below everything it added, leaves no new item without its children |
| Backlog.DescendedForTeamsStep | AdoWorkItemGenerator/Program.cs:396-400 | the walk of one more team, read with that team's catalogue entries, keeps every new item's children present |
| Backlog.FullDrawTitlesDistinct | AdoWorkItemGenerator/Program.cs:457-458 | the task titles of a full draw are pairwise distinct, so a full draw stands for as many distinct task keys as it has tasks |
| Backlog.TasksPresentExtends | AdoWorkItemGenerator/Program.cs:441-467 | the keys of a full draw of tasks (a count in the template's range of task templates with pairwise distinct titles, hence that many distinct task keys) below a backlog item keep existing while the store only gains items |
| Backlog.TeamsStep | AdoWorkItemGenerator/Program.cs:396-471 | one more team walked adds its epic keys to those of the teams before it and keeps every new item's children present |
| Backlog.MadeFromStep | AdoWorkItemGenerator/Program.cs:445-466 | one more task created from the k-th requested task keeps every new item one of the requested tasks as created |
| Backlog.GenerateTask | AdoWorkItemGenerator/Program.cs:447-463 | afterwards the task's key (backlog title, ": ", template title) exists, and a task is created when the key was new; anything new is a Task under the backlog item with the template's description, in "Done" with 0 remaining work under finished work and otherwise in its drawn state (none stored for "To Do") with its drawn remaining work |
| Backlog.GenerateTasks | AdoWorkItemGenerator/Program.cs:445-466 | afterwards the key of every requested task exists; every item created is a Task under the backlog item made for one of the requested tasks: prefixed title, its description, and its state and remaining work after the completion override |
| Backlog.GenerateTasksIfDue | AdoWorkItemGenerator/Program.cs:436-467 | when the gate opens for the state (on the draw taken next), a full draw of tasks is taken (a count in the template's range of templates with distinct titles) and all their keys exist afterwards, every new item being one of them after the override; when it stays closed nothing is created |
| Backlog.GenerateBacklogItem | AdoWorkItemGenerator/Program.cs:426-469 | afterwards the item's key exists; an existing key leaves store and random source untouched; a new key gives an item of the backlog type, with that title, under the feature, in the data's state (none stored for an initial state), and below it, when the gate opens on the draw after creation, a full draw of tasks with all keys present, each new task made from one of them, and otherwise nothing; a new item in a finished state always gets a full draw; only backlog items and tasks are created |
| Backlog.GenerateBacklogItems | AdoWorkItemGenerator/Program.cs:426-468 | afterwards the key of every requested backlog item exists, and every one created in a finished state has the keys of a full draw of tasks below it; only backlog items and tasks are created, each backlog item under the feature; keys stay unique |
| Backlog.GenerateFeatureChildren | AdoWorkItemGenerator/Program.cs:423-468 | the backlog items of a feature created in this run: afterwards the key of every title the feature should have (listed or generated) exists, every backlog item created in a finished state has the keys of a full draw of tasks, and only backlog items under the feature and tasks are created |
| Backlog.GenerateFeature | AdoWorkItemGenerator/Program.cs:414-469 | afterwards the feature's key exists; an existing key leaves store and random source untouched; a new key gives a Feature with that title under the epic, and afterwards every backlog-item key it should have, with a full draw of task keys below each backlog item created in a finished state; only features, backlog items and tasks are created, every feature under the epic |
| Backlog.GenerateFeatures | AdoWorkItemGenerator/Program.cs:414-469 | afterwards the key of every requested feature exists; every feature created hangs under the epic; every item created has all its children (a feature its backlog-item keys, a backlog item in a finished state a full draw of task keys); keys stay unique |
| Backlog.GenerateEpic | AdoWorkItemGenerator/Program.cs:402-470 | afterwards the epic's key exists; an existing key means nothing below it is created and nothing is drawn (cascading skip); a new key gives a parentless Epic with that title, all its features' keys, below each new feature all its backlog-item keys, and below each new backlog item in a finished state a full draw of task keys |
| Backlog.GenerateTeam | AdoWorkItemGenerator/Program.cs:396-471 | afterwards every epic key of the team exists and every item created has all its children: an epic its feature keys, a feature its backlog-item keys, a backlog item in a finished state a full draw of task keys; if all epic keys existed before, the store is untouched |
| Backlog.GenerateTeams | AdoWorkItemGenerator/Program.cs:396-471 | afterwards every epic key of every team exists and every item created has all its children down to the tasks of finished backlog items, read with one team's entries; if all existed before, the store is untouched |
| Backlog.GenerateFullBacklog | AdoWorkItemGenerator/Program.cs:361-474 | an unsupported template aborts before any write; every item created hangs under an item of the level above created in the same run; keys stay unique; afterwards every epic key exists and every item created has all its children, down to a full draw of task keys below each backlog item created in a finished state; a run that finds every epic key changes nothing |
| Backlog.RegenerateIsNoOp | AdoWorkItemGenerator/Program.cs:396-471 | a second run with the same configuration creates, updates and links nothing |
| Cleanup.Batches | AdoWorkItemGenerator/Program.cs:513-522 | every batch holds between 1 and 200 ids |
| Cleanup.FlattenBatches | AdoWorkItemGenerator/Program.cs:516-521 | the batches put back together give the id list, in order |
| Cleanup.BatchesCount | AdoWorkItemGenerator/Program.cs:516-521 | n ids take ⌈n / 200⌉ batches |
| Cleanup.FetchAll | AdoWorkItemGenerator/Program.cs:513-522 | one fetch call per batch, in order; the gathered details are those of the listed ids, in list order |
| Cleanup.AffirmativeAnswers | AdoWorkItemGenerator/Program.cs:536-541 | exactly "y" and "yes", in any mix of cases, confirm; a missing answer does not |
| Cleanup.IsAffirmative | AdoWorkItemGenerator/Program.cs:536-537 | only a present answer of one or three characters can confirm |
| Cleanup.Rank | AdoWorkItemGenerator/Program.cs:548-554 | Task ranks 4, "Product Backlog Item" 3, Feature 2, every other type 1 |
| Cleanup.OrderForDeletionPermutes | AdoWorkItemGenerator/Program.cs:548-554 | the deletion order is a permutation of the fetched items |
| Cleanup.OrderForDeletionSorted | AdoWorkItemGenerator/Program.cs:548-554 | the deletion order is sorted by descending rank |
| Cleanup.OrderForDeletionStable | AdoWorkItemGenerator/Program.cs:548-554 | the order is stable: items of one rank keep their fetched order |
| Cleanup.DeleteCountStep | AdoWorkItemGenerator/Program.cs:558-570 | one attempt adds one to the count of removed held ids if and only if the id was held, not yet removed and not refused |
| Cleanup.DeleteNext | AdoWorkItemGenerator/Program.cs:558-570 | one attempt logs one delete call; afterwards the store is the original less the deletable ids attempted so far, and the count of removed original ids grows by one exactly when `ok` |
| Cleanup.DeleteAll | AdoWorkItemGenerator/Program.cs:556-571 | every item is attempted once, in order, and a failure does not stop later deletions; deleted + failed equals the item count; the store loses exactly the attempted ids that are not refused, and `deleted` is the number of those it held |
| Cleanup.CleanupDemoWorkItems | AdoWorkItemGenerator/Program.cs:476-586 | a failed or empty listing changes nothing; without a confirming answer nothing is deleted; after confirmation all listed items are attempted in rank order, the store loses exactly those that are not refused, and `deleted` counts them |

## Left out

- The console menu, progress output, `CreateSampleWorkItem` and loading the JSON configuration are not modelled. The confirmation answer is an input value (`None` at end of input).
- The SDK connection, patch-document shapes and query texts are replaced by the `Store` class. Its queries read literals as WIQL does. Only the title is escaped.
- `async`/`await` is not modelled: every call is sequential.
- Remote failures of create, update and link calls are not modelled. The store accepts every such call. A failing existence query (malformed literal) or an unsupported template aborts the run (`ok == false`).
- `CreateSprintsWithDates` and `CreateSprintsWithHistory` are not modelled as calls. They read the clock and create classification nodes. Only their day offsets are stated (`SprintCalendar`).
- Backlog.GenerateFullBacklog: the sprint-node setup it performs when sprint history is on is not part of the model.
- The literal epic, feature and backlog tables are an opaque catalogue. For Scrum, Agile and CMMI the feature table's last branch is unconditional, so a faithful catalogue always answers. The model's empty list for `None` is never reached for them.
- Generator.ShuffleTake: `OrderBy(_ => Next()).Take(n)` is modelled as n picks without replacement. This gives the same set of possible ordered selections but a different number of draws.
- Oracle.Random: the program's random sources are one injected tape: the generator's own source, the run's source for the task gate, and the fresh source each `CreateWorkItem` and `CreateTask` call makes for the sprint mapping. This is more general, since any answers are allowed.
- Text.Lower: .NET's culture-sensitive `ToLower()` is modelled as ASCII case folding. Under a culture such as Turkish, where "I" lowers to a dotless i, the program rejects "CMMI" or "BASIC" where `Generator.ParseTemplate` selects a template, and non-ASCII letters that the culture folds onto the template names or onto "y"/"yes" are handled differently too.
- Backlog.GenerateFullBacklog: idempotence and key uniqueness are proved for a project name and area paths without quotes. With a quote, the unescaped query is malformed or looks up different text, which `ItemCreation.WorkItemExists` states.
- Generator.GetBacklogItemsForFeature: for an unlisted feature, the contract states count, titles and states. Descriptions and story points are stated on `GenerateDefaultBacklogItems`.
- Backlog.GenerateTeams: the order in which teams are processed is not stated; the contract states what exists afterwards, not the sequence of calls.
- Backlog.GenerateFeatures: the order in which features are created is not stated, only that all of them exist afterwards under the epic.
- Backlog.GenerateBacklogItems: the order in which backlog items are created is not stated, only that all of them exist afterwards under the feature.
- Backlog.GenerateTasks: the order in which tasks are created is not stated, only that all of them exist afterwards under the backlog item.
- Cleanup.CleanupDemoWorkItems: the per-type summary printed before the confirmation is not modelled.
