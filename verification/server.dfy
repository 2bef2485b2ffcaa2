/** The startup drain of the deferred queue (processPendingTasks in
    cmd/server/main.go): walk a snapshot of the queue in order, replay each
    task, and remove it by id only when its results were written. A task
    that fails stays queued and the walk goes on; a failed removal is
    ignored.

    The outcomes the drain depends on are oracles indexed by the position of
    the task in the snapshot: `probeAt(i)` answers the GETs of task i,
    `updateOkAt(i)` and `removeOkAt(i)` are the outcomes of the two writes
    made for it. */
module Server {
  import opened Models
  import opened Ledger
  import St = Storage
  import opened Service

  /** The queue after the first k snapshot tasks: each one that succeeded
      has had the first task under its id removed, in snapshot order. */
  function Drained(q: seq<PendingTask>, tasks: seq<PendingTask>, ok: nat -> bool, k: nat): (r: seq<PendingTask>)
    requires k <= |tasks|
    ensures |q| - k <= |r| <= |q|
  {
    if k == 0 then q
    else
      var p := Drained(q, tasks, ok, k - 1);
      if ok(k - 1) then RemoveFirst(p, tasks[k - 1].id) else p
  }

  /** The tasks among the first k that failed, in snapshot order. */
  function Failed(tasks: seq<PendingTask>, ok: nat -> bool, k: nat): (r: seq<PendingTask>)
    requires k <= |tasks|
    ensures |r| <= k
  {
    if k == 0 then []
    else Failed(tasks, ok, k - 1) + (if ok(k - 1) then [] else [tasks[k - 1]])
  }

  /** The ledger after the first k snapshot tasks had their probe results
      recorded (in memory every task is recorded, whether its write
      succeeded or not). */
  function Replayed(d: StorageData, tasks: seq<PendingTask>, probeAt: nat -> Prober, k: nat): (r: StorageData)
    requires k <= |tasks|
    ensures r.lastId == d.lastId && |r.linkSets| == |d.linkSets|
  {
    if k == 0 then d
    else Update(Replayed(d, tasks, probeAt, k - 1), tasks[k - 1].id, ProbeMap(tasks[k - 1].links, probeAt(k - 1)))
  }

  ghost predicate DistinctIds(tasks: seq<PendingTask>) {
    forall i, j :: 0 <= i < j < |tasks| ==> TaskId(tasks[i]) != TaskId(tasks[j])
  }

  method ProcessPendingTasks(checker: Checker, store: St.Storage,
                             probeAt: nat -> Prober, updateOkAt: nat -> bool, removeOkAt: nat -> bool)
    requires checker.storage == store
    modifies store
    ensures old(store.pending.tasks) == [] ==> unchanged(store)
    ensures store.pending.tasks == Drained(old(store.pending.tasks), old(store.pending.tasks), updateOkAt, |old(store.pending.tasks)|)
    ensures store.data == Replayed(old(store.data), old(store.pending.tasks), probeAt, |old(store.pending.tasks)|)
  {
    var tasks := store.GetPendingTasks();
    if |tasks| == 0 {
      return;
    }

    for i := 0 to |tasks|
      invariant store.pending.tasks == Drained(tasks, tasks, updateOkAt, i)
      invariant store.data == Replayed(old(store.data), tasks, probeAt, i)
    {
      var task := tasks[i];
      var err := checker.ProcessPendingTask(task.id, task.links, probeAt(i), updateOkAt(i));
      if err.Some? {
        continue;
      }
      var ignored := store.RemovePendingTask(task.id, removeOkAt(i));
    }
  }

  lemma {:induction false} FailedFromSnapshot(tasks: seq<PendingTask>, ok: nat -> bool, k: nat)
    requires k <= |tasks|
    ensures forall t :: t in Failed(tasks, ok, k) ==> t in tasks[..k]
  {
    if k > 0 {
      FailedFromSnapshot(tasks, ok, k - 1);
      assert tasks[..k] == tasks[..k - 1] + [tasks[k - 1]];
    }
  }

  /** Removing `t`'s id from `f + [t] + rest` when no task of `f` has it
      takes out `t` itself. */
  lemma RemoveAfterPrefix(f: seq<PendingTask>, t: PendingTask, rest: seq<PendingTask>)
    requires forall u :: u in f ==> u.id != t.id
    ensures RemoveFirst(f + ([t] + rest), t.id) == f + rest
  {
    RemoveFirstSkipsPrefix(f, [t] + rest, t.id);
    RemoveFirstAt([t] + rest, t.id, 0);
    assert RemoveFirst([t] + rest, t.id) == rest;
  }

  /** No task failed among the first k has the id of task k. */
  lemma FailedOtherIds(tasks: seq<PendingTask>, ok: nat -> bool, k: nat)
    requires k < |tasks| && DistinctIds(tasks)
    ensures forall u :: u in Failed(tasks, ok, k) ==> u.id != tasks[k].id
  {
    FailedFromSnapshot(tasks, ok, k);
    forall u | u in Failed(tasks, ok, k) ensures u.id != tasks[k].id {
      var j :| 0 <= j < k && tasks[..k][j] == u;
      assert TaskId(tasks[j]) != TaskId(tasks[k]);
    }
  }

  /** With distinct ids in the snapshot, the drain leaves exactly the tasks
      that failed, in their original order (here after k tasks, followed by
      the tasks not reached yet). */
  lemma {:induction false} DrainedPrefix(tasks: seq<PendingTask>, ok: nat -> bool, k: nat)
    requires k <= |tasks| && DistinctIds(tasks)
    ensures Drained(tasks, tasks, ok, k) == Failed(tasks, ok, k) + tasks[k..]
  {
    if k > 0 {
      DrainedPrefix(tasks, ok, k - 1);
      var f := Failed(tasks, ok, k - 1);
      var t := tasks[k - 1];
      assert tasks[k - 1..] == [t] + tasks[k..];
      if ok(k - 1) {
        FailedOtherIds(tasks, ok, k - 1);
        RemoveAfterPrefix(f, t, tasks[k..]);
      } else {
        assert f + ([t] + tasks[k..]) == (f + [t]) + tasks[k..];
      }
    }
  }

  /** With distinct ids in the snapshot, a drain over the whole queue leaves
      exactly the failed tasks, in their original order. */
  lemma DrainLeavesFailures(tasks: seq<PendingTask>, ok: nat -> bool)
    requires DistinctIds(tasks)
    ensures Drained(tasks, tasks, ok, |tasks|) == Failed(tasks, ok, |tasks|)
  {
    DrainedPrefix(tasks, ok, |tasks|);
  }

  lemma {:induction false} ReplayedKeepsIds(d: StorageData, tasks: seq<PendingTask>, probeAt: nat -> Prober, k: nat)
    requires k <= |tasks|
    ensures SetIds(Replayed(d, tasks, probeAt, k).linkSets) == SetIds(d.linkSets)
  {
    if k > 0 {
      ReplayedKeepsIds(d, tasks, probeAt, k - 1);
      var p := Replayed(d, tasks, probeAt, k - 1);
      UpdateKeepsIds(p, tasks[k - 1].id, ProbeMap(tasks[k - 1].links, probeAt(k - 1)));
    }
  }

  /** After the replay of the first k tasks, the set of each of them that is
      stored in the ledger is checked. */
  lemma {:induction false} ReplayedChecked(d: StorageData, tasks: seq<PendingTask>, probeAt: nat -> Prober, k: nat, i: nat)
    requires i < k <= |tasks|
    requires tasks[i].id in SetIds(d.linkSets)
    ensures IsChecked(Replayed(d, tasks, probeAt, k).linkSets, tasks[i].id)
  {
    var p := Replayed(d, tasks, probeAt, k - 1);
    var m := ProbeMap(tasks[k - 1].links, probeAt(k - 1));
    if i == k - 1 {
      ReplayedKeepsIds(d, tasks, probeAt, k - 1);
      UpdateMarksChecked(p, tasks[i].id, m, tasks[i].id);
    } else {
      ReplayedChecked(d, tasks, probeAt, k - 1, i);
      UpdateMarksChecked(p, tasks[k - 1].id, m, tasks[i].id);
    }
  }

  lemma {:induction false} DrainStepsKeepConsistent(d: StorageData, tasks: seq<PendingTask>,
                                                   probeAt: nat -> Prober, ok: nat -> bool, k: nat)
    requires k <= |tasks| && Consistent(d, tasks)
    ensures Consistent(Replayed(d, tasks, probeAt, k), Drained(tasks, tasks, ok, k))
  {
    if k > 0 {
      DrainStepsKeepConsistent(d, tasks, probeAt, ok, k - 1);
      var p := Replayed(d, tasks, probeAt, k - 1);
      var q := Drained(tasks, tasks, ok, k - 1);
      var m := ProbeMap(tasks[k - 1].links, probeAt(k - 1));
      UpdateKeepsConsistent(p, q, tasks[k - 1].id, m);
      if ok(k - 1) {
        RemoveKeepsConsistent(Update(p, tasks[k - 1].id, m), q, tasks[k - 1].id);
      }
    }
  }

  /** The drain started from a consistent ledger and queue: it keeps them
      consistent, leaves in the queue exactly the tasks whose write failed
      (in their original order), and leaves the set of every task it walked
      checked. */
  lemma DrainOutcome(d: StorageData, tasks: seq<PendingTask>, probeAt: nat -> Prober, ok: nat -> bool)
    requires Consistent(d, tasks)
    ensures Consistent(Replayed(d, tasks, probeAt, |tasks|), Drained(tasks, tasks, ok, |tasks|))
    ensures Drained(tasks, tasks, ok, |tasks|) == Failed(tasks, ok, |tasks|)
    ensures forall i :: 0 <= i < |tasks| ==> IsChecked(Replayed(d, tasks, probeAt, |tasks|).linkSets, tasks[i].id)
  {
    DrainStepsKeepConsistent(d, tasks, probeAt, ok, |tasks|);
    assert DistinctIds(tasks) by {
      forall i, j | 0 <= i < j < |tasks| ensures TaskId(tasks[i]) != TaskId(tasks[j]) {
        assert TaskId(tasks[i]) < TaskId(tasks[j]);
      }
    }
    DrainLeavesFailures(tasks, ok);
    forall i | 0 <= i < |tasks|
      ensures IsChecked(Replayed(d, tasks, probeAt, |tasks|).linkSets, tasks[i].id)
    {
      assert tasks[i] in tasks;
      ReplayedChecked(d, tasks, probeAt, |tasks|, i);
    }
  }
}
