# ServiceHealthChecker core in Dafny

ServiceHealthChecker is an HTTP service that checks whether web links are
reachable. A client posts a batch of links. The service allocates a
numbered **link set** in its **ledger**, probes every link with an HTTP GET
and records each link as "available" or "not_available". A later report
request lists set ids and gets back a PDF of those sets that have been
checked. While the server is shutting down, new batches are not probed:
they are allocated, answered with "pending" and put on a **deferred queue**
of pending tasks. The next startup drains that queue, in order, before
serving.

This project models that core and proves properties of it:

- `models.dfy` (module `Models`): the records of `internal/models/models.go`,
  the status strings, and an `Option` and an `Error` type.
- `ledger.dfy` (module `Ledger`): the ledger and queue transitions as
  functions on values. These are allocation, recording probe results,
  selection of completed sets and removal of a task. The module also holds
  the lemmas about them, and an invariant that ties ledger and queue
  together:
  - set ids strictly increase and never exceed the counter;
  - queued ids strictly increase and every queued id names a stored set.
- `storage.dfy` (module `Storage`): the store of
  `internal/storage/storage.go` as a class.
  - Its fields are the ledger, the queue, and what each file is known to
    hold.
  - Each method is proved to move the state exactly as the matching
    `Ledger` function does.
  - Every mutator takes the outcome of its file write as a parameter.
- `service.dfy` (module `Service`): `internal/service/checker.go`. This
  covers URL normalisation, the classification of one probe, the per-batch
  probe map, and the two sequences that record results. The HTTP GET is an
  oracle.
- `pdf.dfy` (module `Pdf`): the two string helpers of
  `internal/pdf/generator.go`. Decimal rendering is proved to round-trip
  with the value of the numeral.
- `server.dfy` (module `Server`): the startup drain of `cmd/server/main.go`
  as a loop. It is proved against fold functions. Lemmas about those folds
  prove that the drain:
  - keeps ledger and queue consistent;
  - leaves queued exactly the tasks whose write failed, in their original
    order;
  - leaves the set of every walked task checked.
- `handler.dfy` (module `Handler`): what the two handlers of
  `internal/handler/handler.go` decide. That is which requests they refuse
  with which status, which storage calls they make, and what they reply.

Two modelling choices hold throughout:

- **Writes happen after the memory change.** Each write of a file happens
  after the in-memory change and can fail. A failed write leaves the change
  in memory, as the code does. This includes the counter bump of a failed
  allocation. A failed allocation still advances the counter and keeps the
  new, unchecked set in memory, so the next allocation skips that id.
- **Probe results are a function of the normalised URL.** The GET is an
  oracle from the normalised URL to a transport error or a status code.

## Model

| member | source | states |
|---|---|---|
| Ledger.FirstIndex | internal/storage/storage.go:121-122 | the index found is the first whose id matches; None exactly when no element has the id |
| Ledger.PendingLinks | internal/storage/storage.go:94-100 | one entry per link, in order, carrying that URL and status "pending" |
| Ledger.Allocate | internal/storage/storage.go:91-108 | the ledger after one allocation: the counter goes up by one and one unchecked set under the new counter value is appended; `AllocateEffect` proves that its links are the batch, all pending, and that earlier sets are untouched |
| Ledger.AllocateEffect | internal/storage/storage.go:91-108 | allocation bumps the counter by one and appends exactly one unchecked, all-pending set under the new counter value; earlier sets are untouched |
| Ledger.AllocatePreservesInvariant | internal/storage/storage.go:91-108 | allocation keeps set ids strictly increasing and bounded by the counter |
| Ledger.AllocateAllContiguous | internal/storage/storage.go:91-92 | successive allocations hand out the contiguous ids lastId+1, lastId+2, … and keep the existing sets |
| Ledger.MergeStatuses | internal/storage/storage.go:123-128 | same length and URLs; an entry takes the recorded status exactly when its URL is a key of the map, otherwise keeps its status |
| Ledger.CompleteSet | internal/storage/storage.go:123-129 | a set with the statuses merged in: same id and number of links, and checked |
| Ledger.UpdateSets | internal/storage/storage.go:121-132 | the sets with only the first one under the id completed: same number of sets, same id at every index; `UpdateAt` and `UpdateUnknownId` prove which set changes and how |
| Ledger.Update | internal/storage/storage.go:121-132 | the ledger after recording statuses for an id: counter and number of sets kept; `UpdateAt`, `UpdateKeepsIds` and `UpdateMarksChecked` prove its effect |
| Ledger.FirstSetIndex | internal/storage/storage.go:121-122 | a set is found under an id exactly when the id is stored |
| Ledger.UpdateUnknownId | internal/storage/storage.go:121-132 | recording under an id that is not stored leaves the ledger unchanged |
| Ledger.UpdateAt | internal/storage/storage.go:121-132 | recording changes only the first set under the id: that set keeps its id, URLs and length, is checked, and takes each mapped status; every other set is unchanged |
| Ledger.UpdateKeepsIds | internal/storage/storage.go:121-132 | recording keeps the counter, the number of sets and every set's id |
| Ledger.UpdateMarksChecked | internal/storage/storage.go:129 | after recording under a stored id that id's set is checked; a set already checked stays checked |
| Ledger.SelectCompleted | internal/storage/storage.go:141-153 | the checked, requested sets in storage order: never longer than the ledger, and each selected set is checked and requested; `SelectCompletedMembers` proves the converse and `SelectCompletedOrdered` the order |
| Ledger.SelectCompletedMembers | internal/storage/storage.go:141-153 | a set is selected exactly when it is stored, its id is requested and it is checked |
| Ledger.SelectCompletedOrdered | internal/storage/storage.go:144-151 | selection keeps storage order, so increasing ids stay increasing |
| Ledger.SelectCompletedNone | internal/storage/storage.go:144-151 | when no stored set is requested, nothing is selected |
| Ledger.RemoveFirst | internal/storage/storage.go:181-186 | the queue without the first task under the id: at most one task shorter; `RemoveFirstAt` and `RemoveFirstAbsent` prove which task goes |
| Ledger.RemoveFirstAbsent | internal/storage/storage.go:181-186 | removing an id no task has leaves the queue unchanged |
| Ledger.RemoveFirstAt | internal/storage/storage.go:181-186 | removal takes out exactly the first task under the id; the tasks before it stay and the ones after it shift down by one |
| Ledger.RemoveFirstKeepsIncreasing | internal/storage/storage.go:181-186 | removal keeps queued ids strictly increasing |
| Ledger.DeferredAcceptKeepsConsistent | internal/handler/handler.go:47-57 | allocating a deferred batch keeps ledger and queue consistent, with or without the task then queued under the new id |
| Ledger.UpdateKeepsConsistent | internal/storage/storage.go:117-135 | recording results keeps ledger and queue consistent |
| Ledger.RemoveKeepsConsistent | internal/storage/storage.go:177-189 | removing a task keeps ledger and queue consistent |
| Ledger.LiveSubmission | internal/service/checker.go:49-62 | allocate-then-record keeps the ledger valid, and requesting the new id afterwards yields exactly the new set, checked, with the recorded statuses |
| Storage.Storage.constructor | internal/storage/storage.go:20-23 | a store starts with counter 0, no sets and an empty queue, and nothing is yet known about either file |
| Storage.Storage.LoadData | internal/storage/storage.go:36-53 | a missing ledger file gives counter 0 and no sets; an unreadable or malformed one is an error; a parsed one is taken as it is |
| Storage.Storage.LoadPending | internal/storage/storage.go:55-69 | a missing queue file gives an empty queue; read and decode failures are errors; a parsed one is taken as it is |
| Storage.Storage.SaveData | internal/storage/storage.go:71-77 | a successful write leaves the ledger file equal to the in-memory ledger; a failure is reported |
| Storage.Storage.SavePending | internal/storage/storage.go:79-85 | a successful write leaves the queue file equal to the in-memory queue; a failure is reported |
| Storage.Storage.CreateLinkSet | internal/storage/storage.go:87-115 | the ledger becomes `Allocate` of the old one even when the write fails; the new id is returned on success and 0 with the error on failure |
| Storage.Storage.UpdateLinkSet | internal/storage/storage.go:117-135 | the ledger becomes `Update` of the old one; the file is written even for an unknown id |
| Storage.Storage.GetLinkSets | internal/storage/storage.go:137-154 | the result is the checked sets whose id is listed, in storage order; duplicate ids change nothing |
| Storage.Storage.AddPendingTask | internal/storage/storage.go:156-166 | the task is appended in memory whatever the write's outcome |
| Storage.Storage.GetPendingTasks | internal/storage/storage.go:168-175 | the result is the queue's tasks in order |
| Storage.Storage.RemovePendingTask | internal/storage/storage.go:177-189 | the queue becomes `RemoveFirst` of the old one; the file is written even when nothing matched |
| Storage.Storage.ClearPendingTasks | internal/storage/storage.go:191-197 | the queue becomes empty |
| Storage.New | internal/storage/storage.go:19-34 | the ledger is loaded before the queue; the first load error is returned and no store is produced; otherwise the store holds what was loaded |
| Service.NormalizeURL | internal/service/checker.go:26-31 | the result names http or https; it equals the input exactly when the input already did, and otherwise is "https://" before the input |
| Service.NormalizeIdempotent | internal/service/checker.go:26-31 | normalising twice is normalising once |
| Service.CheckURL | internal/service/checker.go:33-47 | "available" exactly when the GET of the normalised URL gave a code in [200, 300); "not_available" otherwise, including on a transport error |
| Service.ProbeMap | internal/service/checker.go:68-82 | the statuses of a batch: one key per distinct link as given, each "available" or "not_available"; `CheckLinksParallel` is proved to compute it |
| Service.CheckLinksParallel | internal/service/checker.go:64-83 | one key per distinct link as given, each mapped to that link's classification |
| Service.Checker.constructor | internal/service/checker.go:17-24 | the checker works on the store it is given |
| Service.Checker.CheckLinks | internal/service/checker.go:49-62 | a failed allocation returns (empty, 0, error) with no probe recorded; otherwise the ledger records the probe map under the new id; only when both writes succeed are the statuses and the new id returned; the queue is untouched |
| Service.Checker.ProcessPendingTask | internal/service/checker.go:85-88 | the probe map of the task's links is recorded under its id and nothing is allocated; the write's outcome is returned |
| Pdf.DigitChar | internal/pdf/generator.go:62 | the character for a digit value is a decimal digit |
| Pdf.Decimal | internal/pdf/generator.go:61-64 | the decimal digits of n, most significant first: at least one character, all digits; `DecimalRoundTrip` and `DecimalOfValue` prove it is the canonical numeral of n |
| Pdf.DecimalRoundTrip | internal/pdf/generator.go:50-71 | the decimal rendering of n is canonical and reads back as n |
| Pdf.DecimalOfValue | internal/pdf/generator.go:50-71 | rendering the value of a canonical numeral gives the numeral back |
| Pdf.LeadingNonZero | internal/pdf/generator.go:61-64 | a numeral without a leading zero denotes at least 1 |
| Pdf.ZeroNumeral | internal/pdf/generator.go:51-53 | a canonical numeral starting with '0' denotes 0 |
| Pdf.IntToString | internal/pdf/generator.go:50-71 | 0 gives "0"; a non-negative n gives a canonical numeral whose value is n; a negative n gives "-" followed by the canonical numeral of -n |
| Pdf.TruncateString | internal/pdf/generator.go:73-78 | never longer than maxLen; a string that fits is unchanged; a longer one is exactly maxLen long, a prefix of the input followed by "..." |
| Server.Drained | cmd/server/main.go:74-80 | the queue after the first k snapshot tasks, each success removing the first task under its id: at most k tasks shorter; `DrainedPrefix` proves it is the failed tasks followed by the unreached ones |
| Server.Failed | cmd/server/main.go:75-78 | the snapshot tasks among the first k whose write failed, in order: at most k of them; `FailedFromSnapshot` proves they come from the walked prefix |
| Server.Replayed | cmd/server/main.go:74-80 | the ledger after the probe maps of the first k tasks are recorded: counter and number of sets kept; `ReplayedKeepsIds` and `ReplayedChecked` prove its effect |
| Server.ProcessPendingTasks | cmd/server/main.go:66-83 | an empty queue changes nothing; otherwise the queue and the ledger end as the drain folds over the snapshot say |
| Server.FailedFromSnapshot | cmd/server/main.go:74-80 | every task left as failed comes from the snapshot walked so far |
| Server.RemoveAfterPrefix | cmd/server/main.go:79 | removing a task's id takes out that task when no task before it has the id |
| Server.FailedOtherIds | cmd/server/main.go:74-80 | with distinct ids, no failed earlier task shares the id of the current one |
| Server.DrainedPrefix | cmd/server/main.go:74-80 | with distinct ids, after k tasks the queue is the failed ones followed by the tasks not yet reached |
| Server.DrainLeavesFailures | cmd/server/main.go:74-80 | with distinct ids, the drained queue is exactly the failed tasks, in their original order |
| Server.ReplayedKeepsIds | cmd/server/main.go:74-80 | the replay keeps the set of stored ids |
| Server.ReplayedChecked | cmd/server/main.go:74-80 | after the replay, the stored set of every walked task is checked |
| Server.DrainStepsKeepConsistent | cmd/server/main.go:74-80 | every drain step keeps ledger and queue consistent |
| Server.DrainOutcome | cmd/server/main.go:66-83 | from a consistent state the drain stays consistent, leaves queued exactly the tasks whose write failed, and leaves every walked task's set checked |
| Handler.AllPending | internal/handler/handler.go:59-65 | the response map of a deferred batch: one key per distinct link, each "pending"; `Handler.Handler.CheckLinks` is proved to build it |
| Handler.Handler.constructor | internal/handler/handler.go:21-28 | the handler works on the checker and the store it is given |
| Handler.Handler.CheckLinks | internal/handler/handler.go:30-85 | 405 for a non-POST, 400 for an undecodable body or an empty list, with storage untouched. While shutting down: allocate, queue and answer every link "pending", never probing, and queue nothing when the allocation fails; a success means both files hold the new ledger and queue. Otherwise: the checker's result, with the ledger file written on success and the queue and its file untouched. Any storage failure is a 500 |
| Handler.Handler.GetReport | internal/handler/handler.go:87-119 | 405, 400 for an undecodable body or no ids, 404 when no requested set is stored and checked, 500 when rendering fails, else the PDF of the selected sets, all stored, checked and requested |

## Left out

- JSON encoding and decoding of the two files and of request and response bodies are not modelled. A file read is one of missing, unreadable, malformed or parsed into a value. A body is decoded or not. A serialization round trip is out of scope.
- Mutexes, the goroutine per link and the per-request concurrency of the HTTP server are left out. Every operation is one atomic step, and the links of a batch are probed one after another.
- The HTTP client, its 3-second timeout and the network are left out. They are the `Prober` oracle. Two equal links in one batch get the same probe outcome, whereas the source probes them twice.
- Service.Checker.CheckLinks: on both error paths, a failed allocation and a failed recording, the statuses are `map[]` where the source returns a nil map.
- Generate's PDF layout (fonts, table, pagination and the file bytes) is left out. A report reply carries the sets it would render, and a rendering failure is an input.
- Server lifecycle, signal handling and the listen address are left out. The shutdown flag is a plain input of the check handler.
- HTTP headers and response writing are left out. A reply is a status code with its message, a decoded JSON response, or the set list for the PDF.
- Pdf.IntToString: Go's `int` is fixed-width (64-bit on the usual platforms); the model's integers are unbounded. The most negative `int`, whose negation overflows in the source, is not modelled.
- Pdf.TruncateString requires that a string longer than maxLen meets a maxLen of at least 3. In the source that case panics on a negative slice bound.
- Strings are `seq<char>` with one character per byte. `truncateString` counts bytes, so a cut inside a multi-byte UTF-8 sequence is not modelled.
- Server.DrainLeavesFailures needs distinct task ids. Removal takes out the first task under an id, so with repeated ids a later success can remove an earlier failed task. `Server.DrainOutcome` gets distinct ids from the consistency invariant.
- Logging (the drain's messages and the load messages of main) is left out.
- Errors from the drain's removal are ignored, as in the source.
- A recording under an unknown id changes nothing and still writes the ledger file. The source does not log it.
- main's wiring of the components is not part of this model.
