/** Records shared by the storage, the checker and the HTTP handlers
    (internal/models/models.go), plus the small error vocabulary of the core.

    Go strings are byte sequences; here a `string` is a `seq<char>` in which
    every element stands for one byte, so `|s|` is Go's `len(s)`. */
module Models {

  /** The three statuses a link can carry. */
  const Pending: string := "pending"
  const Available: string := "available"
  const NotAvailable: string := "not_available"

  datatype Option<T> = None | Some(value: T)

  /** Errors surfaced by the core. Reads and decodes happen only when the
      storage is opened; every later failure is a failed file write. */
  datatype Error = ReadFailed | DecodeFailed | WriteFailed

  /** Body of a check request: the links to probe. */
  datatype CheckRequest = CheckRequest(links: seq<string>)

  /** Body of a check response: a status per link and the set's id. */
  datatype CheckResponse = CheckResponse(links: map<string, string>, linksNum: int)

  /** Body of a report request: the ids of the sets to render. */
  datatype ReportRequest = ReportRequest(linksList: seq<int>)

  datatype LinkStatus = LinkStatus(url: string, status: string)

  /** One submitted batch of links under a single id. */
  datatype LinkSet = LinkSet(id: int, links: seq<LinkStatus>, checked: bool)

  /** The ledger: the id counter and every set ever created, in creation order. */
  datatype StorageData = StorageData(lastId: int, linkSets: seq<LinkSet>)

  /** A batch accepted during shutdown whose probing was deferred. */
  datatype PendingTask = PendingTask(id: int, links: seq<string>)

  datatype PendingTasks = PendingTasks(tasks: seq<PendingTask>)
}
