/** Creating one work item against the store: the existence check by key,
    then the create call, the optional state update, the optional sprint
    assignment and the optional parent link, in that order. */
module ItemCreation {
  import opened Wrappers
  import opened TrackingStore
  import Wiql
  import Oracle
  import Sprints

  /** The field that carries a task's remaining hours. */
  const RemainingWorkField: string := "Microsoft.VSTS.Scheduling.RemainingWork"

  /** What a creation attempt did: made the item with identity `id`, skipped
      it because its key exists, or failed on the existence query (which
      aborts the whole run). */
  datatype Creation = Made(id: nat) | Skipped | QueryFailed

  /** `WorkItemExists`: the lookup by (project, title, area) with only the
      title escaped. The title is always matched as it is; the project and
      the area path are matched as the store reads them, and a quote in
      either makes the query malformed or a lookup of some other text. */
  function WorkItemExists(store: Store, project: string, title: string, area: string): (r: Option<bool>)
    reads store
    ensures r.None? <==> Wiql.Decode(project).None? || Wiql.Decode(area).None?
    ensures r.Some? ==>
      r.value == KeyExists(store.items, Wiql.Decode(project).value, title, Wiql.Decode(area).value)
    ensures Wiql.Plain(project) && Wiql.Plain(area) ==>
      r == Some(KeyExists(store.items, project, title, area))
  {
    Wiql.DecodeEscape(title);
    Wiql.DecodeUnescaped(project);
    Wiql.DecodeUnescaped(area);
    store.KeyQuery(project, Wiql.Escape(title), area)
  }

  /** The states a new item of any type already has, so no update is sent. */
  predicate IsDefaultState(state: string) {
    state == "New" || state == "To Do" || state == "Proposed"
  }

  /** Finished work is never in an initial state. */
  lemma CompletedNotDefault(state: string)
    ensures Sprints.IsCompletedState(state) ==> !IsDefaultState(state)
  {
  }

  /** The numeric fields written at creation: the effort, only when there is
      one and a field to put it in. */
  function EffortNumbers(effort: Option<int>, fieldName: string): (m: map<string, int>)
    ensures fieldName in m <==> effort.Some? && fieldName != ""
    ensures forall f :: f in m ==> f == fieldName && m[f] == effort.value
  {
    if effort.Some? && fieldName != "" then map[fieldName := effort.value] else map[]
  }

  /** The iteration a new item ends up in, for the oracle tape `tape`. */
  function SprintAssignment(project: string, state: string, iterationPath: string,
                            useSprintHistory: bool, tape: seq<nat>): Option<string>
  {
    if useSprintHistory && iterationPath != "" then
      Some(Sprints.SprintForState(project, state, Oracle.Draw(tape, 1, 4)))
    else None
  }

  /** The oracle tape left after the sprint assignment of a new item. */
  function TapeAfterAssignment(state: string, iterationPath: string, useSprintHistory: bool,
                               tape: seq<nat>): seq<nat>
  {
    if useSprintHistory && iterationPath != "" && Sprints.IsCompletedState(state) then
      Oracle.Rest(tape)
    else tape
  }

  /** The calls that follow the create call of item `id`, in order. */
  function FollowUps(id: nat, state: Option<string>, iteration: Option<string>, parent: Option<nat>): seq<Call> {
    (if state.Some? then [StateSet(id, state.value)] else [])
    + (if iteration.Some? then [IterationSet(id, iteration.value)] else [])
    + (if parent.Some? then [Linked(id, parent.value)] else [])
  }

  /** The create call, followed by the state update when one is due. */
  method Open(store: Store, project: string, itemType: string, title: string, description: string,
              area: string, numbers: map<string, int>, stateUpdate: Option<string>)
    returns (id: nat)
    requires store.Valid()
    modifies store
    ensures store.Valid() && id == old(store.nextId) && store.nextId == id + 1
    ensures store.items == old(store.items)[id := WorkItem(project, itemType, title, description, area,
      numbers, stateUpdate, None, None)]
    ensures store.calls == old(store.calls) + [Created(id)] + FollowUps(id, stateUpdate, None, None)
  {
    id := store.Create(project, itemType, title, description, area, numbers);
    if stateUpdate.Some? {
      store.SetState(id, stateUpdate.value);
    }
  }

  /** The sprint assignment of a new item, when sprint history is on and an
      iteration path is configured. */
  method AssignSprint(store: Store, rng: Oracle.Random, id: nat, project: string, state: string,
                      iterationPath: string, useSprintHistory: bool)
    requires store.Valid() && id in store.items && store.items[id].iteration.None?
    modifies store, rng
    ensures store.Valid() && store.nextId == old(store.nextId)
    ensures store.items == old(store.items)[id := old(store.items)[id].(
      iteration := SprintAssignment(project, state, iterationPath, useSprintHistory, old(rng.tape)))]
    ensures var it := SprintAssignment(project, state, iterationPath, useSprintHistory, old(rng.tape));
      store.calls == old(store.calls) + (if it.Some? then [IterationSet(id, it.value)] else [])
    ensures rng.tape == TapeAfterAssignment(state, iterationPath, useSprintHistory, old(rng.tape))
  {
    if useSprintHistory && iterationPath != "" {
      var sprint := Sprints.GetSprintForState(project, state, rng);
      store.SetIteration(id, sprint);
    } else {
      assert store.items == store.items[id := store.items[id].(iteration := None)];
    }
  }

  /** The link to the parent, when there is one. */
  method LinkToParent(store: Store, id: nat, parent: Option<nat>)
    requires store.Valid() && id in store.items && store.items[id].parent.None?
    modifies store
    ensures store.Valid() && store.nextId == old(store.nextId)
    ensures store.items == old(store.items)[id := old(store.items)[id].(parent := parent)]
    ensures store.calls == old(store.calls) + (if parent.Some? then [Linked(id, parent.value)] else [])
  {
    if parent.Some? {
      store.Link(id, parent.value);
    } else {
      assert store.items == store.items[id := store.items[id].(parent := None)];
    }
  }

  /** The create call and its follow-ups, shared by `CreateWorkItem` and
      `CreateTask`: create, update the state when `updateState`, assign the
      sprint of `state` when sprint history is on and an iteration path is
      configured, and link to `parent` when there is one. */
  method Submit(store: Store, rng: Oracle.Random, project: string, itemType: string, title: string,
                description: string, area: string, numbers: map<string, int>, state: string,
                updateState: bool, iterationPath: string, useSprintHistory: bool, parent: Option<nat>)
    returns (id: nat)
    requires store.Valid()
    modifies store, rng
    ensures store.Valid() && id == old(store.nextId) && store.nextId == id + 1
    ensures store.items == old(store.items)[id := WorkItem(project, itemType, title, description, area,
      numbers, if updateState then Some(state) else None,
      SprintAssignment(project, state, iterationPath, useSprintHistory, old(rng.tape)), parent)]
    ensures store.calls == old(store.calls) + [Created(id)] + FollowUps(id,
      if updateState then Some(state) else None,
      SprintAssignment(project, state, iterationPath, useSprintHistory, old(rng.tape)), parent)
    ensures rng.tape == TapeAfterAssignment(state, iterationPath, useSprintHistory, old(rng.tape))
    ensures !KeyExists(old(store.items), project, title, area) && KeysUnique(old(store.items)) ==>
      KeysUnique(store.items)
  {
    ghost var items0, calls0, tape0 := store.items, store.calls, rng.tape;
    var stateUpdate := if updateState then Some(state) else None;
    ghost var iteration := SprintAssignment(project, state, iterationPath, useSprintHistory, tape0);
    id := Open(store, project, itemType, title, description, area, numbers, stateUpdate);
    AssignSprint(store, rng, id, project, state, iterationPath, useSprintHistory);
    LinkToParent(store, id, parent);
    assert store.calls == calls0 + [Created(id)] + FollowUps(id, stateUpdate, iteration, parent);
    if !KeyExists(items0, project, title, area) && KeysUnique(items0) {
      KeysUniqueAdd(items0, id, store.items[id]);
    }
  }

  /** `CreateWorkItem`: skipped when the key exists; otherwise created with
      its effort, moved out of its initial state unless it is one of the
      initial states, filed into a sprint and linked to its parent. */
  method CreateWorkItem(store: Store, rng: Oracle.Random, project: string, itemType: string,
                        title: string, description: string, area: string, parentId: Option<nat>,
                        state: string, effort: Option<int>, effortFieldName: string,
                        iterationPath: string, useSprintHistory: bool)
    returns (r: Creation)
    requires store.Valid()
    modifies store, rng
    ensures store.Valid()
    ensures r.QueryFailed? <==> old(WorkItemExists(store, project, title, area)).None?
    ensures r.Skipped? <==> old(WorkItemExists(store, project, title, area)) == Some(true)
    ensures !r.Made? ==> unchanged(store) && unchanged(rng)
    ensures r.Made? ==>
      && r.id == old(store.nextId) && store.nextId == r.id + 1
      && store.items == old(store.items)[r.id := WorkItem(project, itemType, title, description, area,
           EffortNumbers(effort, effortFieldName),
           if IsDefaultState(state) then None else Some(state),
           SprintAssignment(project, state, iterationPath, useSprintHistory, old(rng.tape)),
           parentId)]
      && store.calls == old(store.calls) + [Created(r.id)] + FollowUps(r.id,
           if IsDefaultState(state) then None else Some(state),
           SprintAssignment(project, state, iterationPath, useSprintHistory, old(rng.tape)),
           parentId)
      && rng.tape == TapeAfterAssignment(state, iterationPath, useSprintHistory, old(rng.tape))
    ensures Wiql.Plain(project) && Wiql.Plain(area) && KeysUnique(old(store.items)) ==>
      KeysUnique(store.items)
  {
    var found := WorkItemExists(store, project, title, area);
    if found.None? {
      return QueryFailed;
    }
    if found.value {
      return Skipped;
    }
    var id := Submit(store, rng, project, itemType, title, description, area,
                     EffortNumbers(effort, effortFieldName), state, !IsDefaultState(state),
                     iterationPath, useSprintHistory, parentId);
    r := Made(id);
  }

  /** `CreateTask`: skipped when the key exists; otherwise created with its
      remaining work, moved out of "To Do" unless that is its state, filed
      into a sprint and always linked to its parent. */
  method CreateTask(store: Store, rng: Oracle.Random, project: string, title: string,
                    description: string, area: string, parentId: nat, remainingWork: int,
                    iterationPath: string, useSprintHistory: bool, state: string)
    returns (r: Creation)
    requires store.Valid()
    modifies store, rng
    ensures store.Valid()
    ensures r.QueryFailed? <==> old(WorkItemExists(store, project, title, area)).None?
    ensures r.Skipped? <==> old(WorkItemExists(store, project, title, area)) == Some(true)
    ensures !r.Made? ==> unchanged(store) && unchanged(rng)
    ensures r.Made? ==>
      && r.id == old(store.nextId) && store.nextId == r.id + 1
      && store.items == old(store.items)[r.id := WorkItem(project, "Task", title, description, area,
           map[RemainingWorkField := remainingWork],
           if state != "To Do" then Some(state) else None,
           SprintAssignment(project, state, iterationPath, useSprintHistory, old(rng.tape)),
           Some(parentId))]
      && store.calls == old(store.calls) + [Created(r.id)] + FollowUps(r.id,
           if state != "To Do" then Some(state) else None,
           SprintAssignment(project, state, iterationPath, useSprintHistory, old(rng.tape)),
           Some(parentId))
      && rng.tape == TapeAfterAssignment(state, iterationPath, useSprintHistory, old(rng.tape))
    ensures Wiql.Plain(project) && Wiql.Plain(area) && KeysUnique(old(store.items)) ==>
      KeysUnique(store.items)
  {
    var found := WorkItemExists(store, project, title, area);
    if found.None? {
      return QueryFailed;
    }
    if found.value {
      return Skipped;
    }
    var id := Submit(store, rng, project, "Task", title, description, area,
                     map[RemainingWorkField := remainingWork], state, state != "To Do",
                     iterationPath, useSprintHistory, Some(parentId));
    r := Made(id);
  }
}
