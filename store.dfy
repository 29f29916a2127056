/** The remote work-item tracking store, reduced to the calls the program
    makes: create, update state, update iteration, add a parent link,
    look up by (project, title, area), list the items under area paths,
    fetch details in batches and delete to the recycle bin. Identities are
    handed out by the store, never by the program. */
module TrackingStore {
  import opened Wrappers
  import Wiql

  /** One work item as the store keeps it. `state == None` means the item is
      still in the initial state the store gives its type on creation;
      `iteration == None` means no iteration was ever assigned. */
  datatype WorkItem = WorkItem(
    project: string,
    itemType: string,
    title: string,
    description: string,
    area: string,
    numbers: map<string, int>,
    state: Option<string>,
    iteration: Option<string>,
    parent: Option<nat>)

  /** The remote calls other than existence and listing queries, in the order the store received them. */
  datatype Call =
    | Created(id: nat)
    | StateSet(id: nat, state: string)
    | IterationSet(id: nat, path: string)
    | Linked(child: nat, parent: nat)
    | Fetched(ids: seq<nat>)
    | DeleteAttempted(id: nat)

  /** The largest number of ids one detail fetch may ask for. */
  const FetchLimit: nat := 200

  /** The idempotency key (project, title, area path). */
  predicate HasKey(item: WorkItem, project: string, title: string, area: string) {
    item.project == project && item.title == title && item.area == area
  }

  predicate KeyExists(items: map<nat, WorkItem>, project: string, title: string, area: string) {
    exists id :: id in items && HasKey(items[id], project, title, area)
  }

  /** No two items share a key. */
  ghost predicate KeysUnique(items: map<nat, WorkItem>) {
    forall i, j | i in items && j in items && i != j ::
      !HasKey(items[j], items[i].project, items[i].title, items[i].area)
  }

  /** Every item of `before` is still in `after`, unchanged. */
  ghost predicate Extends(before: map<nat, WorkItem>, after: map<nat, WorkItem>) {
    forall id :: id in before ==> id in after && after[id] == before[id]
  }

  /** Adding an item whose key is not taken keeps the keys unique. */
  lemma KeysUniqueAdd(items: map<nat, WorkItem>, id: nat, item: WorkItem)
    requires KeysUnique(items) && id !in items
    requires !KeyExists(items, item.project, item.title, item.area)
    ensures KeysUnique(items[id := item])
  {
    var after := items[id := item];
    forall i, j | i in after && j in after && i != j
      ensures !HasKey(after[j], after[i].project, after[i].title, after[i].area)
    {
      if i == id {
        assert j in items && after[j] == items[j];
      }
    }
  }

  /** A key that exists stays existing when the store only grows. */
  lemma KeyExistsExtends(before: map<nat, WorkItem>, after: map<nat, WorkItem>,
                         project: string, title: string, area: string)
    requires Extends(before, after) && KeyExists(before, project, title, area)
    ensures KeyExists(after, project, title, area)
  {
    var id :| id in before && HasKey(before[id], project, title, area);
    assert id in after && HasKey(after[id], project, title, area);
  }

  /** `area UNDER root`: the root itself or anything below it. */
  predicate Under(area: string, root: string) {
    area == root || (|root| < |area| && area[..|root| + 1] == root + "\\")
  }

  predicate UnderAny(area: string, roots: seq<string>) {
    exists k :: 0 <= k < |roots| && Under(area, roots[k])
  }

  /** The ids below `n` of the items of `project` under one of `roots`, largest id first. */
  function MatchingDescending(items: map<nat, WorkItem>, n: nat, project: string, roots: seq<string>): (ids: seq<nat>)
    ensures forall k :: 0 <= k < |ids| ==> ids[k] < n && ids[k] in items
    ensures forall k, l :: 0 <= k < l < |ids| ==> ids[k] > ids[l]
    ensures forall id :: id in ids <==>
      (id < n && id in items && items[id].project == project && UnderAny(items[id].area, roots))
  {
    if n == 0 then []
    else
      var id := n - 1;
      var rest := MatchingDescending(items, id, project, roots);
      if id in items && items[id].project == project && UnderAny(items[id].area, roots)
      then [id] + rest else rest
  }

  /** Decodes every literal of a list, or None when one is malformed. */
  function DecodeAll(lits: seq<string>): (r: Option<seq<string>>)
    ensures r.Some? <==> forall k :: 0 <= k < |lits| ==> Wiql.Decode(lits[k]).Some?
    ensures r.Some? ==> |r.value| == |lits|
    ensures r.Some? ==> forall k :: 0 <= k < |lits| ==> r.value[k] == Wiql.Decode(lits[k]).value
  {
    if lits == [] then Some([])
    else
      match (Wiql.Decode(lits[0]), DecodeAll(lits[1..]))
      case (Some(x), Some(rest)) => Some([x] + rest)
      case _ => None
  }

  class Store {
    var items: map<nat, WorkItem>
    var nextId: nat
    var calls: seq<Call>
    /** Ids whose deletion the store refuses (permissions, locks, ...). */
    const refusals: set<nat>

    ghost predicate Valid()
      reads this
    {
      forall id :: id in items ==> id < nextId
    }

    constructor (contents: map<nat, WorkItem>, next: nat, refused: set<nat>)
      requires forall id :: id in contents ==> id < next
      ensures Valid()
      ensures items == contents && nextId == next && calls == [] && refusals == refused
    {
      items, nextId, calls, refusals := contents, next, [], refused;
    }

    /** The lookup by key: the three literals are read as the store reads
        them; a malformed one makes the query fail (None). */
    function KeyQuery(projectLit: string, titleLit: string, areaLit: string): (r: Option<bool>)
      reads this
      ensures r.Some? <==>
        Wiql.Decode(projectLit).Some? && Wiql.Decode(titleLit).Some? && Wiql.Decode(areaLit).Some?
      ensures r == Some(true) ==>
        KeyExists(items, Wiql.Decode(projectLit).value, Wiql.Decode(titleLit).value, Wiql.Decode(areaLit).value)
      ensures r == Some(false) ==> forall id :: id in items ==>
        !HasKey(items[id], Wiql.Decode(projectLit).value, Wiql.Decode(titleLit).value, Wiql.Decode(areaLit).value)
    {
      match (Wiql.Decode(projectLit), Wiql.Decode(titleLit), Wiql.Decode(areaLit))
      case (Some(p), Some(t), Some(a)) => Some(KeyExists(items, p, t, a))
      case _ => None
    }

    /** The listing of every item of a project under some area roots, newest
        first. An empty list of roots leaves an empty condition, which is malformed. */
    function UnderAreasQuery(projectLit: string, rootLits: seq<string>): (r: Option<seq<nat>>)
      reads this
      ensures r.Some? <==> rootLits != [] && Wiql.Decode(projectLit).Some? && DecodeAll(rootLits).Some?
      ensures r.Some? ==> forall k :: 0 <= k < |r.value| ==>
        r.value[k] in items && items[r.value[k]].project == Wiql.Decode(projectLit).value
      ensures r.Some? ==> forall k, l :: 0 <= k < l < |r.value| ==> r.value[k] > r.value[l]
    {
      match (Wiql.Decode(projectLit), DecodeAll(rootLits))
      case (Some(p), Some(roots)) =>
        if roots == [] then None else Some(MatchingDescending(items, nextId, p, roots))
      case _ => None
    }

    /** Creates an item in its type's initial state, with no iteration and no parent. */
    method Create(project: string, itemType: string, title: string, description: string,
                  area: string, numbers: map<string, int>) returns (id: nat)
      requires Valid()
      modifies this
      ensures Valid()
      ensures id == old(nextId) && id !in old(items) && nextId == id + 1
      ensures items == old(items)[id := WorkItem(project, itemType, title, description, area,
                                                 numbers, None, None, None)]
      ensures calls == old(calls) + [Created(id)]
    {
      id := nextId;
      items := items[id := WorkItem(project, itemType, title, description, area, numbers, None, None, None)];
      nextId := nextId + 1;
      calls := calls + [Created(id)];
    }

    method SetState(id: nat, state: string)
      requires Valid() && id in items
      modifies this
      ensures Valid() && nextId == old(nextId)
      ensures items == old(items)[id := old(items)[id].(state := Some(state))]
      ensures calls == old(calls) + [StateSet(id, state)]
    {
      items := items[id := items[id].(state := Some(state))];
      calls := calls + [StateSet(id, state)];
    }

    method SetIteration(id: nat, path: string)
      requires Valid() && id in items
      modifies this
      ensures Valid() && nextId == old(nextId)
      ensures items == old(items)[id := old(items)[id].(iteration := Some(path))]
      ensures calls == old(calls) + [IterationSet(id, path)]
    {
      items := items[id := items[id].(iteration := Some(path))];
      calls := calls + [IterationSet(id, path)];
    }

    /** Adds the hierarchy-reverse relation from `child` to `parent`. */
    method Link(child: nat, parent: nat)
      requires Valid() && child in items
      modifies this
      ensures Valid() && nextId == old(nextId)
      ensures items == old(items)[child := old(items)[child].(parent := Some(parent))]
      ensures calls == old(calls) + [Linked(child, parent)]
    {
      items := items[child := items[child].(parent := Some(parent))];
      calls := calls + [Linked(child, parent)];
    }

    /** Details of the requested items, in request order; the call fails when
        it asks for more than `FetchLimit` ids or for an id the store does not hold. */
    method Fetch(ids: seq<nat>) returns (r: Option<seq<(nat, WorkItem)>>)
      modifies this
      ensures items == old(items) && nextId == old(nextId)
      ensures calls == old(calls) + [Fetched(ids)]
      ensures r.Some? <==> |ids| <= FetchLimit && forall k :: 0 <= k < |ids| ==> ids[k] in items
      ensures r.Some? ==> |r.value| == |ids|
      ensures r.Some? ==> forall k :: 0 <= k < |ids| ==> r.value[k] == (ids[k], items[ids[k]])
    {
      calls := calls + [Fetched(ids)];
      if |ids| <= FetchLimit && forall k :: 0 <= k < |ids| ==> ids[k] in items {
        var held := items;
        r := Some(seq(|ids|, k requires 0 <= k < |ids| && ids[k] in held => (ids[k], held[ids[k]])));
      } else {
        r := None;
      }
    }

    /** Moves an item to the recycle bin; fails for an unknown or refused id. */
    method Delete(id: nat) returns (ok: bool)
      requires Valid()
      modifies this
      ensures Valid() && nextId == old(nextId)
      ensures ok <==> id in old(items) && id !in refusals
      ensures items == if ok then old(items) - {id} else old(items)
      ensures calls == old(calls) + [DeleteAttempted(id)]
    {
      ok := id in items && id !in refusals;
      if ok {
        items := items - {id};
      }
      calls := calls + [DeleteAttempted(id)];
    }
  }
}
