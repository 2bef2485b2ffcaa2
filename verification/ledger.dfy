/** The ledger and the deferred queue as values: what each storage operation
    of internal/storage/storage.go does to them, the invariants they keep,
    and the lemmas relating the operations. The class in storage.dfy is
    proved to follow these functions. */
module Ledger {
  import opened Models

  function LinkSetId(ls: LinkSet): int { ls.id }

  function TaskId(t: PendingTask): int { t.id }

  /** Index of the first element whose key is `id`, scanning from the front
      as the storage loops do; None when no element has that key. */
  function FirstIndex<T>(s: seq<T>, key: T -> int, id: int): (r: Option<nat>)
    ensures r.Some? ==> r.value < |s| && key(s[r.value]) == id
    ensures r.Some? ==> forall k :: 0 <= k < r.value ==> key(s[k]) != id
    ensures r.None? ==> forall k :: 0 <= k < |s| ==> key(s[k]) != id
  {
    if s == [] then None
    else if key(s[0]) == id then Some(0)
    else match FirstIndex(s[1..], key, id)
      case None => None
      case Some(i) => Some(i + 1)
  }

  /** An index whose key is `id`, preceded by none, is the first index. */
  lemma {:induction false} FirstIndexAt<T>(s: seq<T>, key: T -> int, id: int, i: nat)
    requires i < |s| && key(s[i]) == id
    requires forall k :: 0 <= k < i ==> key(s[k]) != id
    ensures FirstIndex(s, key, id) == Some(i)
  {
    if i > 0 {
      FirstIndexAt(s[1..], key, id, i - 1);
    }
  }

  /** FirstIndex only looks at keys. */
  lemma {:induction false} SameKeysSameFirst<T>(a: seq<T>, b: seq<T>, key: T -> int, id: int)
    requires |a| == |b|
    requires forall k :: 0 <= k < |a| ==> key(a[k]) == key(b[k])
    ensures FirstIndex(a, key, id) == FirstIndex(b, key, id)
  {
    if a != [] {
      SameKeysSameFirst(a[1..], b[1..], key, id);
    }
  }

  /** Keys strictly increase along the sequence. */
  ghost predicate StrictlyIncreasing<T>(s: seq<T>, key: T -> int) {
    forall i, j :: 0 <= i < j < |s| ==> key(s[i]) < key(s[j])
  }

  function SetIds(sets: seq<LinkSet>): set<int> {
    set ls | ls in sets :: ls.id
  }

  /** Ledger invariant: set ids strictly increase in storage order and the
      counter bounds every stored id. */
  ghost predicate LedgerInvariant(d: StorageData) {
    && StrictlyIncreasing(d.linkSets, LinkSetId)
    && forall i :: 0 <= i < |d.linkSets| ==> d.linkSets[i].id <= d.lastId
  }

  /** Ledger and queue together: the ledger invariant, queue ids strictly
      increasing, and every queued id naming a stored set. */
  ghost predicate Consistent(d: StorageData, q: seq<PendingTask>) {
    && LedgerInvariant(d)
    && StrictlyIncreasing(q, TaskId)
    && forall t :: t in q ==> t.id in SetIds(d.linkSets)
  }

  // ---------------------------------------------------------------------
  // Allocation (CreateLinkSet)

  /** One "pending" entry per link, in input order. */
  function PendingLinks(links: seq<string>): (r: seq<LinkStatus>)
    ensures |r| == |links|
    ensures forall i :: 0 <= i < |links| ==> r[i].url == links[i] && r[i].status == Pending
  {
    if links == [] then []
    else PendingLinks(links[..|links| - 1]) + [LinkStatus(links[|links| - 1], Pending)]
  }

  /** The ledger after allocating a set for `links`. */
  function Allocate(d: StorageData, links: seq<string>): (r: StorageData)
    ensures r.lastId == d.lastId + 1 && |r.linkSets| == |d.linkSets| + 1
    ensures r.linkSets[|d.linkSets|].id == r.lastId && !r.linkSets[|d.linkSets|].checked
  {
    StorageData(d.lastId + 1, d.linkSets + [LinkSet(d.lastId + 1, PendingLinks(links), false)])
  }

  /** Allocation bumps the counter by one, appends exactly one unchecked,
      all-pending set carrying the new counter value, and leaves every
      earlier set as it was. */
  lemma AllocateEffect(d: StorageData, links: seq<string>)
    ensures var r := Allocate(d, links);
      && r.lastId == d.lastId + 1
      && |r.linkSets| == |d.linkSets| + 1
      && r.linkSets[..|d.linkSets|] == d.linkSets
      && var s := r.linkSets[|d.linkSets|];
         s.id == r.lastId && !s.checked && |s.links| == |links|
         && forall i :: 0 <= i < |links| ==> s.links[i] == LinkStatus(links[i], Pending)
  {
    var r := Allocate(d, links);
    assert r.linkSets[..|d.linkSets|] == d.linkSets;
  }

  lemma AllocatePreservesInvariant(d: StorageData, links: seq<string>)
    requires LedgerInvariant(d)
    ensures LedgerInvariant(Allocate(d, links))
  {
    var r := Allocate(d, links);
    forall i, j | 0 <= i < j < |r.linkSets|
      ensures LinkSetId(r.linkSets[i]) < LinkSetId(r.linkSets[j])
    {
      if j < |d.linkSets| {
        assert r.linkSets[i] == d.linkSets[i] && r.linkSets[j] == d.linkSets[j];
      } else {
        assert r.linkSets[i] == d.linkSets[i];
      }
    }
  }

  /** The ledger after allocating one set per batch, in order. */
  function AllocateAll(d: StorageData, batches: seq<seq<string>>): StorageData
    decreases |batches|
  {
    if batches == [] then d
    else Allocate(AllocateAll(d, batches[..|batches| - 1]), batches[|batches| - 1])
  }

  /** Successive allocations hand out the contiguous ids lastId+1,
      lastId+2, ... and never touch the sets that were already there. */
  lemma {:induction false} AllocateAllContiguous(d: StorageData, batches: seq<seq<string>>)
    ensures var r := AllocateAll(d, batches);
      && r.lastId == d.lastId + |batches|
      && |r.linkSets| == |d.linkSets| + |batches|
      && r.linkSets[..|d.linkSets|] == d.linkSets
      && forall i :: |d.linkSets| <= i < |r.linkSets| ==> r.linkSets[i].id == d.lastId + 1 + (i - |d.linkSets|)
    decreases |batches|
  {
    if batches != [] {
      var init := batches[..|batches| - 1];
      AllocateAllContiguous(d, init);
      var p := AllocateAll(d, init);
      var r := AllocateAll(d, batches);
      assert r == Allocate(p, batches[|batches| - 1]);
      assert r.linkSets[..|p.linkSets|] == p.linkSets;
      assert r.linkSets[..|d.linkSets|] == p.linkSets[..|d.linkSets|];
      forall i | |d.linkSets| <= i < |r.linkSets|
        ensures r.linkSets[i].id == d.lastId + 1 + (i - |d.linkSets|)
      {
        if i < |p.linkSets| {
          assert r.linkSets[i] == p.linkSets[i];
        }
      }
    }
  }

  // ---------------------------------------------------------------------
  // Recording probe results (UpdateLinkSet)

  /** Overwrite the status of every entry whose URL is a key of `statuses`. */
  function MergeStatuses(links: seq<LinkStatus>, statuses: map<string, string>): (r: seq<LinkStatus>)
    ensures |r| == |links|
    ensures forall i :: 0 <= i < |links| ==> r[i].url == links[i].url
    ensures forall i :: 0 <= i < |links| ==>
      r[i].status == if links[i].url in statuses then statuses[links[i].url] else links[i].status
  {
    if links == [] then []
    else
      var last := links[|links| - 1];
      MergeStatuses(links[..|links| - 1], statuses)
        + [if last.url in statuses then last.(status := statuses[last.url]) else last]
  }

  /** A set with `statuses` recorded: same id and number of links, checked. */
  function CompleteSet(ls: LinkSet, statuses: map<string, string>): (r: LinkSet)
    ensures r.id == ls.id && r.checked && |r.links| == |ls.links|
  {
    ls.(links := MergeStatuses(ls.links, statuses), checked := true)
  }

  /** The sets after recording `statuses` for `id`: only the first set with
      that id changes. */
  function UpdateSets(sets: seq<LinkSet>, id: int, statuses: map<string, string>): (r: seq<LinkSet>)
    ensures |r| == |sets|
    ensures forall k :: 0 <= k < |sets| ==> LinkSetId(r[k]) == LinkSetId(sets[k])
  {
    match FirstIndex(sets, LinkSetId, id)
    case None => sets
    case Some(i) => sets[i := CompleteSet(sets[i], statuses)]
  }

  /** The ledger after recording `statuses` for `id`; the counter and the
      number of sets never change. */
  function Update(d: StorageData, id: int, statuses: map<string, string>): (r: StorageData)
    ensures r.lastId == d.lastId && |r.linkSets| == |d.linkSets|
  {
    d.(linkSets := UpdateSets(d.linkSets, id, statuses))
  }

  /** A stored id has a first index and an unknown id has none. */
  lemma FirstSetIndex(sets: seq<LinkSet>, id: int)
    ensures FirstIndex(sets, LinkSetId, id).Some? <==> id in SetIds(sets)
  {
    var f := FirstIndex(sets, LinkSetId, id);
    if f.Some? {
      assert sets[f.value] in sets;
    }
    if id in SetIds(sets) {
      var ls :| ls in sets && ls.id == id;
      var k :| 0 <= k < |sets| && sets[k] == ls;
      assert LinkSetId(sets[k]) == id;
    }
  }

  /** Recording results for an id that is not stored changes nothing. */
  lemma UpdateUnknownId(d: StorageData, id: int, statuses: map<string, string>)
    requires id !in SetIds(d.linkSets)
    ensures Update(d, id, statuses) == d
  {
    FirstSetIndex(d.linkSets, id);
  }

  /** Recording results when set `i` is the first stored under `id`: the
      counter, the number of sets and every other set stay as they were;
      set `i` keeps its id, becomes checked, keeps its URLs in order and
      takes the mapped status exactly where its URL is a key. */
  lemma UpdateAt(d: StorageData, id: int, statuses: map<string, string>, i: nat)
    requires i < |d.linkSets| && d.linkSets[i].id == id
    requires forall k :: 0 <= k < i ==> d.linkSets[k].id != id
    ensures var r := Update(d, id, statuses);
      && r.lastId == d.lastId
      && |r.linkSets| == |d.linkSets|
      && (forall k :: 0 <= k < |d.linkSets| && k != i ==> r.linkSets[k] == d.linkSets[k])
      && r.linkSets[i].id == id
      && r.linkSets[i].checked
      && |r.linkSets[i].links| == |d.linkSets[i].links|
      && (forall j :: 0 <= j < |d.linkSets[i].links| ==> r.linkSets[i].links[j].url == d.linkSets[i].links[j].url)
      && (forall j :: 0 <= j < |d.linkSets[i].links| ==>
            r.linkSets[i].links[j].status ==
              if d.linkSets[i].links[j].url in statuses then statuses[d.linkSets[i].links[j].url]
              else d.linkSets[i].links[j].status)
  {
    FirstIndexAt(d.linkSets, LinkSetId, id, i);
  }

  /** Recording results never changes the counter, the number of sets or
      any set's id. */
  lemma UpdateKeepsIds(d: StorageData, id: int, statuses: map<string, string>)
    ensures var r := Update(d, id, statuses);
      && r.lastId == d.lastId
      && |r.linkSets| == |d.linkSets|
      && (forall k :: 0 <= k < |d.linkSets| ==> r.linkSets[k].id == d.linkSets[k].id)
      && SetIds(r.linkSets) == SetIds(d.linkSets)
  {
    var r := Update(d, id, statuses);
    assert forall k :: 0 <= k < |d.linkSets| ==> r.linkSets[k].id == d.linkSets[k].id;
    SameKeysSameIds(d.linkSets, r.linkSets);
  }

  /** The first set stored under `id` exists and is checked. */
  ghost predicate IsChecked(sets: seq<LinkSet>, id: int) {
    match FirstIndex(sets, LinkSetId, id)
    case None => false
    case Some(k) => sets[k].checked
  }

  /** Recording results for `id` leaves that id's set checked whenever it is
      stored, and never un-checks the set of any other id. */
  lemma UpdateMarksChecked(d: StorageData, id: int, statuses: map<string, string>, other: int)
    ensures id in SetIds(d.linkSets) ==> IsChecked(Update(d, id, statuses).linkSets, id)
    ensures IsChecked(d.linkSets, other) ==> IsChecked(Update(d, id, statuses).linkSets, other)
  {
    var r := Update(d, id, statuses).linkSets;
    UpdateKeepsIds(d, id, statuses);
    assert forall k :: 0 <= k < |r| ==> LinkSetId(r[k]) == LinkSetId(d.linkSets[k]);
    SameKeysSameFirst(d.linkSets, r, LinkSetId, id);
    SameKeysSameFirst(d.linkSets, r, LinkSetId, other);
    FirstSetIndex(d.linkSets, id);
    var f := FirstIndex(d.linkSets, LinkSetId, id);
    if f.Some? {
      UpdateAt(d, id, statuses, f.value);
    }
  }

  lemma SameKeysSameIds(a: seq<LinkSet>, b: seq<LinkSet>)
    requires |a| == |b|
    requires forall k :: 0 <= k < |a| ==> a[k].id == b[k].id
    ensures SetIds(a) == SetIds(b)
  {
    forall x | x in SetIds(a) ensures x in SetIds(b) {
      var ls :| ls in a && ls.id == x;
      var k :| 0 <= k < |a| && a[k] == ls;
      assert b[k] in b;
    }
    forall x | x in SetIds(b) ensures x in SetIds(a) {
      var ls :| ls in b && ls.id == x;
      var k :| 0 <= k < |b| && b[k] == ls;
      assert a[k] in a;
    }
  }

  // ---------------------------------------------------------------------
  // Selecting completed sets (GetLinkSets)

  /** The stored sets whose id is requested and which are checked, in
      storage order. */
  function SelectCompleted(sets: seq<LinkSet>, ids: set<int>): (r: seq<LinkSet>)
    ensures |r| <= |sets|
    ensures forall ls :: ls in r ==> ls.checked && ls.id in ids
  {
    if sets == [] then []
    else
      var last := sets[|sets| - 1];
      SelectCompleted(sets[..|sets| - 1], ids) + (if last.id in ids && last.checked then [last] else [])
  }

  /** A set is selected exactly when it is stored, requested and checked. */
  lemma {:induction false} SelectCompletedMembers(sets: seq<LinkSet>, ids: set<int>, ls: LinkSet)
    ensures ls in SelectCompleted(sets, ids) <==> ls in sets && ls.id in ids && ls.checked
  {
    if sets != [] {
      var init := sets[..|sets| - 1];
      SelectCompletedMembers(init, ids, ls);
      assert sets == init + [sets[|sets| - 1]];
    }
  }

  /** Selection keeps the storage order: increasing ids in the ledger give
      increasing (so pairwise distinct) ids in the result. */
  lemma {:induction false} SelectCompletedOrdered(sets: seq<LinkSet>, ids: set<int>)
    requires StrictlyIncreasing(sets, LinkSetId)
    ensures StrictlyIncreasing(SelectCompleted(sets, ids), LinkSetId)
  {
    if sets != [] {
      var init := sets[..|sets| - 1];
      var last := sets[|sets| - 1];
      SelectCompletedOrdered(init, ids);
      var p := SelectCompleted(init, ids);
      forall ls | ls in p ensures ls.id < last.id {
        SelectCompletedMembers(init, ids, ls);
        var k :| 0 <= k < |init| && init[k] == ls;
        assert LinkSetId(sets[k]) < LinkSetId(sets[|sets| - 1]);
      }
      var r := SelectCompleted(sets, ids);
      forall i, j | 0 <= i < j < |r| ensures LinkSetId(r[i]) < LinkSetId(r[j]) {
        if j < |p| {
          assert r[i] == p[i] && r[j] == p[j];
        } else {
          assert r[i] == p[i] && p[i] in p;
        }
      }
    }
  }

  // ---------------------------------------------------------------------
  // Removing a deferred task (RemovePendingTask)

  /** The queue without its first task carrying `id`. */
  function RemoveFirst(tasks: seq<PendingTask>, id: int): (r: seq<PendingTask>)
    ensures |tasks| - 1 <= |r| <= |tasks|
  {
    match FirstIndex(tasks, TaskId, id)
    case None => tasks
    case Some(i) => tasks[..i] + tasks[i + 1..]
  }

  /** With no task under `id` the queue is unchanged. */
  lemma RemoveFirstAbsent(tasks: seq<PendingTask>, id: int)
    requires forall t :: t in tasks ==> t.id != id
    ensures RemoveFirst(tasks, id) == tasks
  {
    assert forall k :: 0 <= k < |tasks| ==> tasks[k] in tasks;
  }

  /** When task `i` is the first under `id`, removal deletes exactly that
      task and keeps the others in their order. */
  lemma RemoveFirstAt(tasks: seq<PendingTask>, id: int, i: nat)
    requires i < |tasks| && tasks[i].id == id
    requires forall k :: 0 <= k < i ==> tasks[k].id != id
    ensures var r := RemoveFirst(tasks, id);
      && |r| == |tasks| - 1
      && (forall k :: 0 <= k < i ==> r[k] == tasks[k])
      && (forall k :: i <= k < |r| ==> r[k] == tasks[k + 1])
  {
    FirstIndexAt(tasks, TaskId, id, i);
  }

  /** A prefix without `id` is skipped by removal. */
  lemma RemoveFirstSkipsPrefix(a: seq<PendingTask>, b: seq<PendingTask>, id: int)
    requires forall t :: t in a ==> t.id != id
    ensures RemoveFirst(a + b, id) == a + RemoveFirst(b, id)
  {
    var s := a + b;
    var fb := FirstIndex(b, TaskId, id);
    forall k | 0 <= k < |a| ensures TaskId(s[k]) != id {
      assert s[k] == a[k] && a[k] in a;
    }
    forall k | |a| <= k < |s| ensures s[k] == b[k - |a|] {
    }
    if fb.Some? {
      FirstIndexAt(s, TaskId, id, |a| + fb.value);
      assert s[..|a| + fb.value] == a + b[..fb.value];
      assert s[|a| + fb.value + 1..] == b[fb.value + 1..];
    }
  }

  lemma RemoveFirstKeepsIncreasing(tasks: seq<PendingTask>, id: int)
    requires StrictlyIncreasing(tasks, TaskId)
    ensures StrictlyIncreasing(RemoveFirst(tasks, id), TaskId)
    ensures forall t :: t in RemoveFirst(tasks, id) ==> t in tasks
  {
    var f := FirstIndex(tasks, TaskId, id);
    if f.Some? {
      var i := f.value;
      var r := tasks[..i] + tasks[i + 1..];
      forall a, b | 0 <= a < b < |r| ensures TaskId(r[a]) < TaskId(r[b]) {
        var a' := if a < i then a else a + 1;
        var b' := if b < i then b else b + 1;
        assert r[a] == tasks[a'] && r[b] == tasks[b'];
      }
      forall t | t in r ensures t in tasks {
        var k :| 0 <= k < |r| && r[k] == t;
        assert r[k] == tasks[if k < i then k else k + 1];
      }
    }
  }

  // ---------------------------------------------------------------------
  // The consistency of ledger and queue across the operations

  /** Accepting a batch during shutdown keeps ledger and queue consistent,
      whether or not the task gets enqueued after the allocation. */
  lemma DeferredAcceptKeepsConsistent(d: StorageData, q: seq<PendingTask>, links: seq<string>)
    requires Consistent(d, q)
    ensures Consistent(Allocate(d, links), q)
    ensures Consistent(Allocate(d, links), q + [PendingTask(d.lastId + 1, links)])
  {
    var r := Allocate(d, links);
    AllocatePreservesInvariant(d, links);
    assert SetIds(d.linkSets) <= SetIds(r.linkSets) by {
      forall x | x in SetIds(d.linkSets) ensures x in SetIds(r.linkSets) {
        var ls :| ls in d.linkSets && ls.id == x;
        assert ls in r.linkSets;
      }
    }
    assert r.linkSets[|d.linkSets|] in r.linkSets;
    var q' := q + [PendingTask(d.lastId + 1, links)];
    forall i, j | 0 <= i < j < |q'| ensures TaskId(q'[i]) < TaskId(q'[j]) {
      if j < |q| {
        assert q'[i] == q[i] && q'[j] == q[j];
      } else {
        assert q'[i] == q[i] && q[i] in q;
        var ls :| ls in d.linkSets && ls.id == q[i].id;
        var k :| 0 <= k < |d.linkSets| && d.linkSets[k] == ls;
      }
    }
  }

  /** Recording results keeps ledger and queue consistent. */
  lemma UpdateKeepsConsistent(d: StorageData, q: seq<PendingTask>, id: int, statuses: map<string, string>)
    requires Consistent(d, q)
    ensures Consistent(Update(d, id, statuses), q)
  {
    var r := Update(d, id, statuses);
    UpdateKeepsIds(d, id, statuses);
    SameKeysSameIds(d.linkSets, r.linkSets);
    assert forall i :: 0 <= i < |r.linkSets| ==> LinkSetId(r.linkSets[i]) == LinkSetId(d.linkSets[i]);
  }

  /** Removing a task keeps ledger and queue consistent. */
  lemma RemoveKeepsConsistent(d: StorageData, q: seq<PendingTask>, id: int)
    requires Consistent(d, q)
    ensures Consistent(d, RemoveFirst(q, id))
  {
    RemoveFirstKeepsIncreasing(q, id);
  }

  /** No set of `sets` is requested: nothing is selected. */
  lemma {:induction false} SelectCompletedNone(sets: seq<LinkSet>, ids: set<int>)
    requires forall k :: 0 <= k < |sets| ==> sets[k].id !in ids
    ensures SelectCompleted(sets, ids) == []
  {
    if sets != [] {
      SelectCompletedNone(sets[..|sets| - 1], ids);
    }
  }

  /** A live submission from a valid ledger: allocating the batch and then
      recording its probe results under the new id keeps the ledger valid,
      and asking for that id afterwards yields exactly the new set, checked
      and carrying the recorded statuses. */
  lemma LiveSubmission(d: StorageData, links: seq<string>, statuses: map<string, string>)
    requires LedgerInvariant(d)
    ensures var id := d.lastId + 1;
      var r := Update(Allocate(d, links), id, statuses);
      && LedgerInvariant(r)
      && SelectCompleted(r.linkSets, {id}) == [LinkSet(id, MergeStatuses(PendingLinks(links), statuses), true)]
  {
    var id := d.lastId + 1;
    var a := Allocate(d, links);
    var r := Update(a, id, statuses);
    var n := |d.linkSets|;
    AllocatePreservesInvariant(d, links);
    UpdateAt(a, id, statuses, n);
    UpdateKeepsIds(a, id, statuses);
    SameKeysSameIds(a.linkSets, r.linkSets);
    assert forall k :: 0 <= k < |r.linkSets| ==> LinkSetId(r.linkSets[k]) == LinkSetId(a.linkSets[k]);
    var created := LinkSet(id, MergeStatuses(PendingLinks(links), statuses), true);
    assert r.linkSets[n] == created;
    assert r.linkSets[..n] == d.linkSets;
    SelectCompletedNone(d.linkSets, {id});
  }
}
