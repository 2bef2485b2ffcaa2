/** The storage component (internal/storage/storage.go): the only owner of
    the ledger and of the deferred queue.

    Every mutating method changes the in-memory state first and then writes
    the whole record to its file. The outcome of that write is the `saveOk`
    parameter; `dataOnDisk` and `pendingOnDisk` hold what the files are known
    to contain, or None while nothing is known about a file (before it is
    loaded, or after a load found it missing). A failed write leaves the
    in-memory change in place and says nothing about the file. */
module Storage {
  import opened Models
  import opened Ledger

  /** What reading and decoding one of the two files produced. */
  datatype FileRead<T> = NotExist | Unreadable | Malformed | Parsed(value: T)

  /** The error a failed load returns, if any. */
  function LoadError<T>(r: FileRead<T>): Option<Error> {
    match r
    case Unreadable => Some(ReadFailed)
    case Malformed => Some(DecodeFailed)
    case _ => None
  }

  function SaveResult(ok: bool): Option<Error> {
    if ok then None else Some(WriteFailed)
  }

  class Storage {
    var data: StorageData
    var pending: PendingTasks
    var dataOnDisk: Option<StorageData>
    var pendingOnDisk: Option<PendingTasks>

    /** The zero-valued store. Neither file has been read yet, so nothing is
        known about what they contain. */
    constructor ()
      ensures data == StorageData(0, []) && pending == PendingTasks([])
      ensures dataOnDisk == None && pendingOnDisk == None
    {
      data := StorageData(0, []);
      pending := PendingTasks([]);
      dataOnDisk := None;
      pendingOnDisk := None;
    }

    /** A missing ledger file starts an empty ledger with counter 0; a
        readable one is taken as it is decoded. */
    method LoadData(read: FileRead<StorageData>) returns (err: Option<Error>)
      modifies this`data, this`dataOnDisk
      ensures err == LoadError(read)
      ensures read.NotExist? ==> data == StorageData(0, []) && dataOnDisk == None
      ensures read.Parsed? ==> data == read.value && dataOnDisk == Some(read.value)
    {
      match read
      case NotExist =>
        data := StorageData(0, []);
        dataOnDisk := None;
        return None;
      case Unreadable =>
        return Some(ReadFailed);
      case Malformed =>
        return Some(DecodeFailed);
      case Parsed(v) =>
        data := v;
        dataOnDisk := Some(v);
        return None;
    }

    /** A missing queue file starts an empty queue. */
    method LoadPending(read: FileRead<PendingTasks>) returns (err: Option<Error>)
      modifies this`pending, this`pendingOnDisk
      ensures err == LoadError(read)
      ensures read.NotExist? ==> pending == PendingTasks([]) && pendingOnDisk == None
      ensures read.Parsed? ==> pending == read.value && pendingOnDisk == Some(read.value)
    {
      match read
      case NotExist =>
        pending := PendingTasks([]);
        pendingOnDisk := None;
        return None;
      case Unreadable =>
        return Some(ReadFailed);
      case Malformed =>
        return Some(DecodeFailed);
      case Parsed(v) =>
        pending := v;
        pendingOnDisk := Some(v);
        return None;
    }

    /** Write the ledger to its file. */
    method SaveData(ok: bool) returns (err: Option<Error>)
      modifies this`dataOnDisk
      ensures err == SaveResult(ok)
      ensures ok ==> dataOnDisk == Some(data)
    {
      if ok {
        dataOnDisk := Some(data);
        err := None;
      } else {
        dataOnDisk := *;
        err := Some(WriteFailed);
      }
    }

    /** Write the queue to its file. */
    method SavePending(ok: bool) returns (err: Option<Error>)
      modifies this`pendingOnDisk
      ensures err == SaveResult(ok)
      ensures ok ==> pendingOnDisk == Some(pending)
    {
      if ok {
        pendingOnDisk := Some(pending);
        err := None;
      } else {
        pendingOnDisk := *;
        err := Some(WriteFailed);
      }
    }

    /** Allocate a new set for `links`. The counter and the new set stay in
        memory even when the write fails; the caller then gets (0, error). */
    method CreateLinkSet(links: seq<string>, saveOk: bool) returns (id: int, err: Option<Error>)
      modifies this`data, this`dataOnDisk
      ensures data == Allocate(old(data), links)
      ensures err == SaveResult(saveOk)
      ensures id == if saveOk then data.lastId else 0
      ensures saveOk ==> dataOnDisk == Some(data)
    {
      data := data.(lastId := data.lastId + 1);
      var newId := data.lastId;

      var statuses := new LinkStatus[|links|];
      for i := 0 to |links|
        invariant data == old(data).(lastId := newId)
        invariant forall k :: 0 <= k < i ==> statuses[k] == LinkStatus(links[k], Pending)
      {
        statuses[i] := LinkStatus(links[i], Pending);
      }
      assert statuses[..] == PendingLinks(links);

      data := data.(linkSets := data.linkSets + [LinkSet(newId, statuses[..], false)]);

      err := SaveData(saveOk);
      if err.Some? {
        return 0, err;
      }
      return newId, None;
    }

    /** Record probe results for the first set stored under `id` and mark it
        checked; an unknown id changes nothing but is still written. */
    method UpdateLinkSet(id: int, statuses: map<string, string>, saveOk: bool) returns (err: Option<Error>)
      modifies this`data, this`dataOnDisk
      ensures data == Update(old(data), id, statuses)
      ensures err == SaveResult(saveOk)
      ensures saveOk ==> dataOnDisk == Some(data)
    {
      var i := 0;
      while i < |data.linkSets|
        invariant 0 <= i <= |data.linkSets|
        invariant data == old(data)
        invariant forall k :: 0 <= k < i ==> LinkSetId(data.linkSets[k]) != id
      {
        if data.linkSets[i].id == id {
          var before := data.linkSets[i].links;
          var links := before;
          for j := 0 to |links|
            invariant |links| == |before|
            invariant forall k :: 0 <= k < j ==> links[k].url == before[k].url
            invariant forall k :: 0 <= k < j ==>
              links[k].status == if before[k].url in statuses then statuses[before[k].url] else before[k].status
            invariant forall k :: j <= k < |links| ==> links[k] == before[k]
          {
            var url := links[j].url;
            if url in statuses {
              links := links[j := links[j].(status := statuses[url])];
            }
          }
          assert links == MergeStatuses(before, statuses);
          FirstIndexAt(data.linkSets, LinkSetId, id, i);
          data := data.(linkSets := data.linkSets[i := data.linkSets[i].(links := links, checked := true)]);
          break;
        }
        i := i + 1;
      }
      err := SaveData(saveOk);
    }

    /** The checked sets whose id is listed, in storage order. Listing an id
        twice makes no difference. */
    method GetLinkSets(ids: seq<int>) returns (result: seq<LinkSet>)
      ensures result == SelectCompleted(data.linkSets, set id | id in ids)
      ensures forall ls :: ls in result <==> ls in data.linkSets && ls.id in ids && ls.checked
    {
      var idSet: set<int> := {};
      for i := 0 to |ids|
        invariant idSet == set id | id in ids[..i]
      {
        assert ids[..i + 1] == ids[..i] + [ids[i]];
        idSet := idSet + {ids[i]};
      }
      assert ids[..|ids|] == ids;

      result := [];
      for j := 0 to |data.linkSets|
        invariant result == SelectCompleted(data.linkSets[..j], idSet)
      {
        var ls := data.linkSets[j];
        assert data.linkSets[..j + 1][..j] == data.linkSets[..j];
        if ls.id in idSet && ls.checked {
          result := result + [ls];
        }
      }
      assert data.linkSets[..|data.linkSets|] == data.linkSets;
      forall ls: LinkSet ensures ls in result <==> ls in data.linkSets && ls.id in ids && ls.checked {
        SelectCompletedMembers(data.linkSets, idSet, ls);
      }
    }

    /** Append a deferred task; it stays queued in memory even when the write
        fails. */
    method AddPendingTask(id: int, links: seq<string>, saveOk: bool) returns (err: Option<Error>)
      modifies this`pending, this`pendingOnDisk
      ensures pending.tasks == old(pending.tasks) + [PendingTask(id, links)]
      ensures err == SaveResult(saveOk)
      ensures saveOk ==> pendingOnDisk == Some(pending)
    {
      pending := pending.(tasks := pending.tasks + [PendingTask(id, links)]);
      err := SavePending(saveOk);
    }

    /** A copy of the queue. */
    method GetPendingTasks() returns (tasks: seq<PendingTask>)
      ensures tasks == pending.tasks
    {
      tasks := pending.tasks;
    }

    /** Remove the first task queued under `id`; the file is written even
        when nothing matched. */
    method RemovePendingTask(id: int, saveOk: bool) returns (err: Option<Error>)
      modifies this`pending, this`pendingOnDisk
      ensures pending.tasks == RemoveFirst(old(pending.tasks), id)
      ensures err == SaveResult(saveOk)
      ensures saveOk ==> pendingOnDisk == Some(pending)
    {
      var i := 0;
      while i < |pending.tasks|
        invariant 0 <= i <= |pending.tasks|
        invariant pending == old(pending)
        invariant forall k :: 0 <= k < i ==> TaskId(pending.tasks[k]) != id
      {
        if pending.tasks[i].id == id {
          FirstIndexAt(pending.tasks, TaskId, id, i);
          pending := pending.(tasks := pending.tasks[..i] + pending.tasks[i + 1..]);
          break;
        }
        i := i + 1;
      }
      err := SavePending(saveOk);
    }

    /** Empty the queue. */
    method ClearPendingTasks(saveOk: bool) returns (err: Option<Error>)
      modifies this`pending, this`pendingOnDisk
      ensures pending.tasks == []
      ensures err == SaveResult(saveOk)
      ensures saveOk ==> pendingOnDisk == Some(pending)
    {
      pending := PendingTasks([]);
      err := SavePending(saveOk);
    }
  }

  /** Open the store: read the ledger file, then the queue file; the first
      failure is returned and no store is produced. */
  method New(dataRead: FileRead<StorageData>, pendingRead: FileRead<PendingTasks>)
    returns (s: Storage?, err: Option<Error>)
    ensures err == if LoadError(dataRead).Some? then LoadError(dataRead) else LoadError(pendingRead)
    ensures err.Some? <==> s == null
    ensures s != null ==> fresh(s)
    ensures s != null && dataRead.NotExist? ==> s.data == StorageData(0, []) && s.dataOnDisk == None
    ensures s != null && dataRead.Parsed? ==> s.data == dataRead.value && s.dataOnDisk == Some(dataRead.value)
    ensures s != null && pendingRead.NotExist? ==> s.pending == PendingTasks([]) && s.pendingOnDisk == None
    ensures s != null && pendingRead.Parsed? ==> s.pending == pendingRead.value && s.pendingOnDisk == Some(pendingRead.value)
  {
    var store := new Storage();
    err := store.LoadData(dataRead);
    if err.Some? {
      return null, err;
    }
    err := store.LoadPending(pendingRead);
    if err.Some? {
      return null, err;
    }
    return store, None;
  }
}
