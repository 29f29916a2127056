/** `CleanupDemoWorkItems`: list every item of the project under the teams'
    area paths, fetch their details in batches, ask for confirmation, then
    delete them one by one, tasks first and epics last, counting successes
    and failures. */
module Cleanup {
  import opened Wrappers
  import opened TrackingStore
  import Text
  import Backlog

  // ---------------------------------------------------------------- batches

  /** The id list cut into consecutive batches of `FetchLimit` ids, the last
      one possibly shorter. */
  function Batches(ids: seq<nat>): (bs: seq<seq<nat>>)
    ensures forall k :: 0 <= k < |bs| ==> 0 < |bs[k]| <= FetchLimit
    decreases |ids|
  {
    if ids == [] then []
    else if |ids| <= FetchLimit then [ids]
    else [ids[..FetchLimit]] + Batches(ids[FetchLimit..])
  }

  function Flatten(bs: seq<seq<nat>>): seq<nat> {
    if bs == [] then [] else bs[0] + Flatten(bs[1..])
  }

  /** The batches put back together give the id list, in order. */
  lemma {:induction false} FlattenBatches(ids: seq<nat>)
    ensures Flatten(Batches(ids)) == ids
    decreases |ids|
  {
    if |ids| > FetchLimit {
      FlattenBatches(ids[FetchLimit..]);
      assert Batches(ids)[1..] == Batches(ids[FetchLimit..]);
      assert ids == ids[..FetchLimit] + ids[FetchLimit..];
    }
  }

  /** n ids take ⌈n / FetchLimit⌉ batches. */
  lemma {:induction false} BatchesCount(ids: seq<nat>)
    ensures |Batches(ids)| == (|ids| + FetchLimit - 1) / FetchLimit
    decreases |ids|
  {
    if |ids| > FetchLimit {
      BatchesCount(ids[FetchLimit..]);
    }
  }

  /** One detail fetch per batch, in order. */
  function FetchCalls(bs: seq<seq<nat>>): (cs: seq<Call>)
    ensures |cs| == |bs|
    ensures forall k :: 0 <= k < |bs| ==> cs[k] == Fetched(bs[k])
  {
    seq(|bs|, k requires 0 <= k < |bs| => Fetched(bs[k]))
  }

  /** The details of the listed ids, in list order. */
  function Details(ids: seq<nat>, items: map<nat, WorkItem>): (ds: seq<(nat, WorkItem)>)
    requires forall k :: 0 <= k < |ids| ==> ids[k] in items
    ensures |ds| == |ids|
    ensures forall k :: 0 <= k < |ids| ==> ds[k] == (ids[k], items[ids[k]])
  {
    seq(|ids|, k requires 0 <= k < |ids| && ids[k] in items => (ids[k], items[ids[k]]))
  }

  // ------------------------------------------------------------ confirmation

  /** The answer read from the console (None at end of input) confirms when,
      lower-cased, it is "y" or "yes". */
  predicate IsAffirmative(answer: Option<string>)
    ensures IsAffirmative(answer) ==> answer.Some? && (|answer.value| == 1 || |answer.value| == 3)
  {
    answer.Some? && (Text.Lower(answer.value) == "y" || Text.Lower(answer.value) == "yes")
  }

  /** Exactly the one-letter answer y and the three-letter answer yes, in any
      mix of cases, confirm; no answer at all does not. */
  lemma {:induction false} AffirmativeAnswers(s: string)
    ensures !IsAffirmative(None)
    ensures IsAffirmative(Some(s)) <==>
      (|s| == 1 && s[0] in {'y', 'Y'}) ||
      (|s| == 3 && s[0] in {'y', 'Y'} && s[1] in {'e', 'E'} && s[2] in {'s', 'S'})
  {
    var l := Text.Lower(s);
    if |s| == 1 {
      assert l == "y" <==> l[0] == 'y';
    } else if |s| == 3 {
      assert l == "yes" <==> l[0] == 'y' && l[1] == 'e' && l[2] == 's';
    } else {
      assert |l| == |s|;
    }
  }

  // ---------------------------------------------------------------- ordering

  /** The deletion rank of a work-item type: tasks first, epics (and every
      type it does not name) last. */
  function Rank(itemType: string): (r: int)
    ensures 1 <= r <= 4
  {
    if itemType == "Task" then 4
    else if itemType == "Product Backlog Item" then 3
    else if itemType == "Feature" then 2
    else 1
  }

  /** The entries of `ds` of rank `r`, in their order in `ds`. */
  function WithRank(ds: seq<(nat, WorkItem)>, r: int): (out: seq<(nat, WorkItem)>)
    ensures forall k :: 0 <= k < |out| ==> Rank(out[k].1.itemType) == r
    ensures |out| <= |ds|
    ensures !(1 <= r <= 4) ==> out == []
  {
    if ds == [] then []
    else (if Rank(ds[0].1.itemType) == r then [ds[0]] else []) + WithRank(ds[1..], r)
  }

  /** `OrderByDescending(rank)`: a stable sort by descending rank. */
  function OrderForDeletion(ds: seq<(nat, WorkItem)>): (r: seq<(nat, WorkItem)>)
  {
    WithRank(ds, 4) + WithRank(ds, 3) + WithRank(ds, 2) + WithRank(ds, 1)
  }

  /** Concatenation is associative. */
  lemma ConcatAssoc<T>(a: seq<T>, b: seq<T>, c: seq<T>)
    ensures a + (b + c) == (a + b) + c
  {
  }

  lemma {:induction false} WithRankAppend(a: seq<(nat, WorkItem)>, b: seq<(nat, WorkItem)>, r: int)
    ensures WithRank(a + b, r) == WithRank(a, r) + WithRank(b, r)
    decreases |a|
  {
    if a != [] {
      WithRankAppend(a[1..], b, r);
      var head := if Rank(a[0].1.itemType) == r then [a[0]] else [];
      assert (a + b)[0] == a[0] && (a + b)[1..] == a[1..] + b;
      calc {
        WithRank(a + b, r);
        head + WithRank(a[1..] + b, r);
        head + (WithRank(a[1..], r) + WithRank(b, r));
        { ConcatAssoc(head, WithRank(a[1..], r), WithRank(b, r)); }
        (head + WithRank(a[1..], r)) + WithRank(b, r);
      }
    } else {
      assert a + b == b;
    }
  }

  lemma {:induction false} WithRankTwice(ds: seq<(nat, WorkItem)>, r: int, q: int)
    ensures WithRank(WithRank(ds, r), q) == if r == q then WithRank(ds, r) else []
    decreases |ds|
  {
    if ds != [] {
      WithRankTwice(ds[1..], r, q);
      var head := if Rank(ds[0].1.itemType) == r then [ds[0]] else [];
      WithRankAppend(head, WithRank(ds[1..], r), q);
      if head != [] {
        assert head[1..] == [];
      }
    }
  }

  /** The entries of one rank in a list that starts with `x`. */
  lemma WithRankCons(x: (nat, WorkItem), rest: seq<(nat, WorkItem)>, r: int)
    ensures multiset(WithRank([x] + rest, r)) ==
      multiset(WithRank(rest, r)) + (if Rank(x.1.itemType) == r then multiset{x} else multiset{})
  {
    assert ([x] + rest)[1..] == rest;
  }

  /** Adding `x` to exactly one of four parts adds it to their sum. */
  lemma AddToOnePart<T>(x: T, k: int, a4: multiset<T>, a3: multiset<T>, a2: multiset<T>, a1: multiset<T>,
                        b4: multiset<T>, b3: multiset<T>, b2: multiset<T>, b1: multiset<T>)
    requires 1 <= k <= 4
    requires b4 == a4 + (if k == 4 then multiset{x} else multiset{})
    requires b3 == a3 + (if k == 3 then multiset{x} else multiset{})
    requires b2 == a2 + (if k == 2 then multiset{x} else multiset{})
    requires b1 == a1 + (if k == 1 then multiset{x} else multiset{})
    ensures b4 + b3 + b2 + b1 == multiset{x} + (a4 + a3 + a2 + a1)
  {
  }

  lemma {:induction false} WithRankMultiset(ds: seq<(nat, WorkItem)>)
    ensures multiset(ds) == multiset(WithRank(ds, 4)) + multiset(WithRank(ds, 3))
                          + multiset(WithRank(ds, 2)) + multiset(WithRank(ds, 1))
    decreases |ds|
  {
    if ds != [] {
      var x, rest := ds[0], ds[1..];
      assert ds == [x] + rest;
      WithRankMultiset(rest);
      WithRankCons(x, rest, 4);
      WithRankCons(x, rest, 3);
      WithRankCons(x, rest, 2);
      WithRankCons(x, rest, 1);
      AddToOnePart(x, Rank(x.1.itemType),
        multiset(WithRank(rest, 4)), multiset(WithRank(rest, 3)),
        multiset(WithRank(rest, 2)), multiset(WithRank(rest, 1)),
        multiset(WithRank(ds, 4)), multiset(WithRank(ds, 3)),
        multiset(WithRank(ds, 2)), multiset(WithRank(ds, 1)));
    }
  }

  /** The deletion order is a permutation of the fetched items ... */
  lemma OrderForDeletionPermutes(ds: seq<(nat, WorkItem)>)
    ensures multiset(OrderForDeletion(ds)) == multiset(ds)
  {
    WithRankMultiset(ds);
  }

  /** ... sorted by descending rank ... */
  lemma OrderForDeletionSorted(ds: seq<(nat, WorkItem)>)
    ensures forall i, j :: 0 <= i < j < |OrderForDeletion(ds)| ==>
      Rank(OrderForDeletion(ds)[i].1.itemType) >= Rank(OrderForDeletion(ds)[j].1.itemType)
  {
    var a, b, c, d := WithRank(ds, 4), WithRank(ds, 3), WithRank(ds, 2), WithRank(ds, 1);
    var o := OrderForDeletion(ds);
    forall i | 0 <= i < |o|
      ensures Rank(o[i].1.itemType) == if i < |a| then 4 else if i < |a| + |b| then 3
                                       else if i < |a| + |b| + |c| then 2 else 1
    {
      if i < |a| { assert o[i] == a[i]; }
      else if i < |a| + |b| { assert o[i] == b[i - |a|]; }
      else if i < |a| + |b| + |c| { assert o[i] == c[i - |a| - |b|]; }
      else { assert o[i] == d[i - |a| - |b| - |c|]; }
    }
  }

  /** Selecting one rank from four lists put together selects it from each. */
  lemma WithRankFour(a: seq<(nat, WorkItem)>, b: seq<(nat, WorkItem)>, c: seq<(nat, WorkItem)>,
                     d: seq<(nat, WorkItem)>, r: int)
    ensures WithRank(a + b + c + d, r) == WithRank(a, r) + WithRank(b, r) + WithRank(c, r) + WithRank(d, r)
  {
    WithRankAppend(a + b + c, d, r);
    WithRankAppend(a + b, c, r);
    WithRankAppend(a, b, r);
  }

  /** Four parts of which only the one for rank `k` may be non-empty put
      together give that part. */
  lemma OnlyOnePart<T>(x: seq<T>, k: int, p4: seq<T>, p3: seq<T>, p2: seq<T>, p1: seq<T>)
    requires p4 == (if k == 4 then x else [])
    requires p3 == (if k == 3 then x else [])
    requires p2 == (if k == 2 then x else [])
    requires p1 == (if k == 1 then x else [])
    requires 1 <= k <= 4 || x == []
    ensures p4 + p3 + p2 + p1 == x
  {
    if k == 4 {
      assert p4 + p3 + p2 + p1 == x + [] + [] + [];
    } else if k == 3 {
      assert p4 + p3 + p2 + p1 == [] + x + [] + [];
    } else if k == 2 {
      assert p4 + p3 + p2 + p1 == [] + [] + x + [];
    } else if k == 1 {
      assert p4 + p3 + p2 + p1 == [] + [] + [] + x;
    } else {
      assert p4 + p3 + p2 + p1 == [] + [] + [] + [];
    }
  }

  /** Selecting rank `r` from each rank's entries keeps only rank `r`'s. */
  lemma RankParts(ds: seq<(nat, WorkItem)>, r: int)
    ensures WithRank(WithRank(ds, 4), r) + WithRank(WithRank(ds, 3), r)
          + WithRank(WithRank(ds, 2), r) + WithRank(WithRank(ds, 1), r) == WithRank(ds, r)
  {
    WithRankTwice(ds, 4, r);
    WithRankTwice(ds, 3, r);
    WithRankTwice(ds, 2, r);
    WithRankTwice(ds, 1, r);
    OnlyOnePart(WithRank(ds, r), r, WithRank(WithRank(ds, 4), r), WithRank(WithRank(ds, 3), r),
                WithRank(WithRank(ds, 2), r), WithRank(WithRank(ds, 1), r));
  }

  /** ... and stable: the items of each rank keep their fetched order. */
  lemma OrderForDeletionStable(ds: seq<(nat, WorkItem)>, r: int)
    ensures WithRank(OrderForDeletion(ds), r) == WithRank(ds, r)
  {
    var a, b, c, d := WithRank(ds, 4), WithRank(ds, 3), WithRank(ds, 2), WithRank(ds, 1);
    WithRankFour(a, b, c, d, r);
    RankParts(ds, r);
  }

  // ---------------------------------------------------------------- deletion

  /** One delete attempt per item, in order. */
  function Attempts(ds: seq<(nat, WorkItem)>): (cs: seq<Call>)
    ensures |cs| == |ds|
    ensures forall k :: 0 <= k < |ds| ==> cs[k] == DeleteAttempted(ds[k].0)
  {
    seq(|ds|, k requires 0 <= k < |ds| => DeleteAttempted(ds[k].0))
  }

  lemma AttemptsStep(ds: seq<(nat, WorkItem)>, k: nat)
    requires k < |ds|
    ensures Attempts(ds[..k + 1]) == Attempts(ds[..k]) + [DeleteAttempted(ds[k].0)]
  {
  }

  /** The ids of `ds` the store does not refuse to delete. */
  function Deletable(ds: seq<(nat, WorkItem)>, refusals: set<nat>): set<nat> {
    if ds == [] then {}
    else
      var last := ds[|ds| - 1].0;
      Deletable(ds[..|ds| - 1], refusals) + (if last in refusals then {} else {last})
  }

  /** The area paths of the teams, as written into the query. */
  function AreaPaths(teams: seq<Backlog.TeamConfig>): (paths: seq<string>)
    ensures |paths| == |teams|
    ensures forall k :: 0 <= k < |teams| ==> paths[k] == teams[k].areaPath
  {
    seq(|teams|, k requires 0 <= k < |teams| => teams[k].areaPath)
  }

  datatype CleanupResult =
    | QueryFailed
    | NothingFound
    | Cancelled
    | Finished(deleted: nat, failed: nat)

  /** The batches from `i` on are the next batch followed by the batches after it. */
  lemma BatchesStep(ids: seq<nat>, i: nat, size: nat)
    requires i < |ids| && size == (if |ids| - i < FetchLimit then |ids| - i else FetchLimit)
    ensures Batches(ids[i..]) == [ids[i..i + size]] + Batches(ids[i + size..])
  {
    if |ids| - i <= FetchLimit {
      assert ids[i..] == ids[i..i + size] && ids[i + size..] == [];
    } else {
      assert ids[i..][..FetchLimit] == ids[i..i + size] && ids[i..][FetchLimit..] == ids[i + size..];
    }
  }

  lemma FetchCallsStep(done: seq<seq<nat>>, batch: seq<nat>)
    ensures FetchCalls(done + [batch]) == FetchCalls(done) + [Fetched(batch)]
  {
  }

  lemma DetailsStep(ids: seq<nat>, i: nat, j: nat, items: map<nat, WorkItem>)
    requires i <= j <= |ids| && forall k :: 0 <= k < |ids| ==> ids[k] in items
    ensures Details(ids[..j], items) == Details(ids[..i], items) + Details(ids[i..j], items)
  {
  }

  /** The next batch of the fetch loop, cut at `i`: the batches from `i` on
      are that batch followed by the batches after it, and the calls log one
      fetch more. */
  lemma FetchStep(ids: seq<nat>, i: nat, size: nat, done: seq<seq<nat>>)
    requires i < |ids| && size == (if |ids| - i < FetchLimit then |ids| - i else FetchLimit)
    requires Batches(ids) == done + Batches(ids[i..])
    ensures Batches(ids) == (done + [ids[i..i + size]]) + Batches(ids[i + size..])
    ensures FetchCalls(done + [ids[i..i + size]]) == FetchCalls(done) + [Fetched(ids[i..i + size])]
  {
    BatchesStep(ids, i, size);
    ConcatAssoc(done, [ids[i..i + size]], Batches(ids[i + size..]));
    FetchCallsStep(done, ids[i..i + size]);
  }

  /** The detail fetch: one call per batch, the details gathered in list order. */
  method FetchAll(store: Store, ids: seq<nat>) returns (all: seq<(nat, WorkItem)>)
    requires forall k :: 0 <= k < |ids| ==> ids[k] in store.items
    modifies store
    ensures store.items == old(store.items) && store.nextId == old(store.nextId)
    ensures store.calls == old(store.calls) + FetchCalls(Batches(ids))
    ensures all == Details(ids, store.items)
  {
    all := [];
    var i := 0;
    ghost var done: seq<seq<nat>> := [];
    while i < |ids|
      invariant 0 <= i <= |ids|
      invariant store.items == old(store.items) && store.nextId == old(store.nextId)
      invariant Batches(ids) == done + Batches(ids[i..])
      invariant store.calls == old(store.calls) + FetchCalls(done)
      invariant all == Details(ids[..i], store.items)
    {
      var size := if |ids| - i < FetchLimit then |ids| - i else FetchLimit;
      var batch := ids[i..i + size];
      FetchStep(ids, i, size, done);
      DetailsStep(ids, i, i + size, store.items);
      var fetched := store.Fetch(batch);
      assert fetched.value == Details(batch, store.items);
      all := all + fetched.value;
      done := done + [batch];
      i := i + size;
    }
    assert ids[..i] == ids;
    assert ids[i..] == [];
  }

  /** One more attempt extends the refusal-free ids by that id unless it is refused. */
  lemma DeletableStep(ds: seq<(nat, WorkItem)>, k: nat, refusals: set<nat>)
    requires k < |ds|
    ensures Deletable(ds[..k + 1], refusals) ==
      Deletable(ds[..k], refusals) + (if ds[k].0 in refusals then {} else {ds[k].0})
  {
    assert ds[..k + 1][..k] == ds[..k];
  }

  /** One delete attempt on a store that lost `gone` keeps it the original
      minus the grown `gone` ... */
  lemma DeleteAttemptStep(original: map<nat, WorkItem>, gone: set<nat>, grown: set<nat>, refusals: set<nat>,
                          id: nat, before: map<nat, WorkItem>, after: map<nat, WorkItem>, ok: bool)
    requires before == original - gone
    requires grown == gone + (if id in refusals then {} else {id})
    requires ok <==> id in before && id !in refusals
    requires after == if ok then before - {id} else before
    ensures after == original - grown
  {
    if id in refusals {
      assert grown == gone;
    } else if ok {
      assert after == original - (gone + {id});
    } else {
      assert before == original - (gone + {id});
    }
  }

  /** ... and counts one more removal exactly when it succeeds. */
  lemma DeleteCountStep(original: set<nat>, gone: set<nat>, grown: set<nat>, refusals: set<nat>,
                        id: nat, ok: bool)
    requires grown == gone + (if id in refusals then {} else {id})
    requires ok <==> id in original && id !in gone && id !in refusals
    ensures |original * grown| == |original * gone| + (if ok then 1 else 0)
  {
    if id in refusals {
      assert grown == gone;
    } else if ok {
      assert original * grown == (original * gone) + {id};
    } else {
      assert original * grown == original * gone;
    }
  }

  /** Removing no key leaves a map as it is. */
  lemma RemoveNothing(m: map<nat, WorkItem>)
    ensures m - {} == m
  {
  }

  /** One turn of the deletion loop: the attempt on the `k`-th item of a
      store that has lost `gone`, the refusal-free ids of the items before it. */
  method DeleteNext(store: Store, ordered: seq<(nat, WorkItem)>, k: nat, ghost original: map<nat, WorkItem>,
                    ghost logged: seq<Call>, ghost gone: set<nat>)
    returns (ok: bool, ghost grown: set<nat>)
    requires store.Valid() && k < |ordered|
    requires store.calls == logged + Attempts(ordered[..k])
    requires gone == Deletable(ordered[..k], store.refusals) && store.items == original - gone
    modifies store
    ensures store.Valid() && store.nextId == old(store.nextId)
    ensures store.calls == logged + Attempts(ordered[..k + 1])
    ensures grown == Deletable(ordered[..k + 1], store.refusals) && store.items == original - grown
    ensures |original.Keys * grown| == |original.Keys * gone| + (if ok then 1 else 0)
  {
    ok := store.Delete(ordered[k].0);
    AttemptsStep(ordered, k);
    DeletableStep(ordered, k, store.refusals);
    grown := Deletable(ordered[..k + 1], store.refusals);
    DeleteAttemptStep(original, gone, grown, store.refusals, ordered[k].0, old(store.items), store.items, ok);
    DeleteCountStep(original.Keys, gone, grown, store.refusals, ordered[k].0, ok);
  }

  /** The deletion loop: every item is attempted in turn; a refusal counts
      as a failure and does not stop the loop. Afterwards exactly the
      listed items the store does not refuse are gone, every other item is
      kept as it was, and `deleted` counts the items removed. */
  method DeleteAll(store: Store, ordered: seq<(nat, WorkItem)>) returns (deleted: nat, failed: nat)
    requires store.Valid()
    modifies store
    ensures store.Valid() && store.nextId == old(store.nextId)
    ensures deleted + failed == |ordered|
    ensures store.calls == old(store.calls) + Attempts(ordered)
    ensures store.items == old(store.items) - Deletable(ordered, store.refusals)
    ensures deleted == |old(store.items).Keys * Deletable(ordered, store.refusals)|
  {
    deleted, failed := 0, 0;
    ghost var original := store.items;
    ghost var gone: set<nat> := {};
    RemoveNothing(original);
    assert ordered[..0] == [];
    for k := 0 to |ordered|
      invariant store.Valid() && store.nextId == old(store.nextId)
      invariant deleted + failed == k
      invariant store.calls == old(store.calls) + Attempts(ordered[..k])
      invariant gone == Deletable(ordered[..k], store.refusals) && store.items == original - gone
      invariant deleted == |original.Keys * gone|
    {
      var ok;
      ok, gone := DeleteNext(store, ordered, k, original, old(store.calls), gone);
      if ok {
        deleted := deleted + 1;
      } else {
        failed := failed + 1;
      }
    }
    assert ordered[..|ordered|] == ordered;
  }

  /** `CleanupDemoWorkItems`. A failed or empty listing ends the cleanup with
      nothing deleted; without a confirming answer nothing is deleted. */
  method CleanupDemoWorkItems(store: Store, project: string, teams: seq<Backlog.TeamConfig>,
                              answer: Option<string>)
    returns (result: CleanupResult)
    requires store.Valid()
    modifies store
    ensures store.Valid() && store.nextId == old(store.nextId)
    ensures result.QueryFailed? <==> old(store.UnderAreasQuery(project, AreaPaths(teams))).None?
    ensures result.NothingFound? <==> old(store.UnderAreasQuery(project, AreaPaths(teams))) == Some([])
    ensures result.QueryFailed? || result.NothingFound? ==> unchanged(store)
    ensures !IsAffirmative(answer) ==> store.items == old(store.items)
    ensures result.Cancelled? ==>
      !IsAffirmative(answer) &&
      store.calls == old(store.calls) + FetchCalls(Batches(old(store.UnderAreasQuery(project, AreaPaths(teams))).value))
    ensures result.Finished? ==>
      var ids := old(store.UnderAreasQuery(project, AreaPaths(teams))).value;
      var ordered := OrderForDeletion(Details(ids, old(store.items)));
      && IsAffirmative(answer)
      && result.deleted + result.failed == |ids|
      && store.calls == old(store.calls) + FetchCalls(Batches(ids)) + Attempts(ordered)
      && store.items == old(store.items) - Deletable(ordered, store.refusals)
      && result.deleted == |old(store.items).Keys * Deletable(ordered, store.refusals)|
  {
    var listed := store.UnderAreasQuery(project, AreaPaths(teams));
    if listed.None? {
      return QueryFailed;
    }
    var ids := listed.value;
    if ids == [] {
      return NothingFound;
    }
    var all := FetchAll(store, ids);
    if !IsAffirmative(answer) {
      return Cancelled;
    }
    var ordered := OrderForDeletion(all);
    OrderForDeletionPermutes(all);
    assert |ordered| == |ids| by {
      assert |multiset(ordered)| == |multiset(all)|;
    }
    var deleted, failed := DeleteAll(store, ordered);
    result := Finished(deleted, failed);
  }
}
