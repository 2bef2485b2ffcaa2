/** The decisions of the two HTTP handlers (internal/handler/handler.go):
    which requests are refused, which storage calls are made and what reply
    is produced. Decoding and encoding the JSON bodies, headers and the PDF
    bytes are not modelled: a request body arrives already decoded (None
    when it did not decode) and a report reply carries the sets the PDF is
    rendered from. */
module Handler {
  import opened Models
  import opened Ledger
  import St = Storage
  import opened Service

  const MethodPost: string := "POST"

  /** What a handler writes back. */
  datatype Reply =
    | HttpError(code: int, message: string)
    | Json(body: CheckResponse)
    | Pdf(sets: seq<LinkSet>)

  /** The response map of a deferred batch: every link "pending". */
  function AllPending(links: seq<string>): (r: map<string, string>)
    ensures r.Keys == set u | u in links
    ensures forall u :: u in r ==> r[u] == Pending
  {
    map u | u in links :: Pending
  }

  /** A check request that passes validation. */
  predicate AcceptedCheck(httpMethod: string, body: Option<CheckRequest>) {
    httpMethod == MethodPost && body.Some? && body.value.links != []
  }

  class Handler {
    const checker: Checker
    const storage: St.Storage

    constructor (checker: Checker, storage: St.Storage)
      ensures this.checker == checker && this.storage == storage
    {
      this.checker := checker;
      this.storage := storage;
    }

    /** POST /check. Validation happens before any storage call. While
        shutting down, the batch is allocated and queued, never probed, and
        every link is answered "pending"; a failed allocation queues nothing.
        Otherwise the reply is exactly what the checker returned. Any storage
        failure becomes a 500. */
    method CheckLinks(httpMethod: string, body: Option<CheckRequest>, isShutdown: bool,
                      probe: Prober, createOk: bool, nextOk: bool)
      returns (reply: Reply)
      modifies storage, checker.storage
      ensures httpMethod != MethodPost ==> reply == HttpError(405, "Method not allowed")
      ensures httpMethod == MethodPost && body.None? ==> reply == HttpError(400, "Invalid request body")
      ensures httpMethod == MethodPost && body.Some? && body.value.links == [] ==>
        reply == HttpError(400, "No links provided")
      ensures !AcceptedCheck(httpMethod, body) ==> unchanged(storage) && unchanged(checker.storage)
      ensures AcceptedCheck(httpMethod, body) && isShutdown ==>
        var links := body.value.links;
        var newId := old(storage.data.lastId) + 1;
        && storage.data == Allocate(old(storage.data), links)
        && storage.pending.tasks ==
             (if createOk then old(storage.pending.tasks) + [PendingTask(newId, links)] else old(storage.pending.tasks))
        && reply == (if createOk && nextOk then Json(CheckResponse(AllPending(links), newId))
                     else HttpError(500, "Internal server error"))
        && (createOk && nextOk ==>
              storage.dataOnDisk == Some(storage.data) && storage.pendingOnDisk == Some(storage.pending))
        && (checker.storage != storage ==> unchanged(checker.storage))
      ensures AcceptedCheck(httpMethod, body) && !isShutdown ==>
        var links := body.value.links;
        var newId := old(checker.storage.data.lastId) + 1;
        && checker.storage.pending == old(checker.storage.pending)
        && checker.storage.pendingOnDisk == old(checker.storage.pendingOnDisk)
        && checker.storage.data ==
             (if createOk then Update(Allocate(old(checker.storage.data), links), newId, ProbeMap(links, probe))
              else Allocate(old(checker.storage.data), links))
        && reply == (if createOk && nextOk then Json(CheckResponse(ProbeMap(links, probe), newId))
                     else HttpError(500, "Internal server error"))
        && (createOk && nextOk ==> checker.storage.dataOnDisk == Some(checker.storage.data))
        && (checker.storage != storage ==> unchanged(storage))
    {
      if httpMethod != MethodPost {
        return HttpError(405, "Method not allowed");
      }
      if body.None? {
        return HttpError(400, "Invalid request body");
      }
      var req := body.value;
      if |req.links| == 0 {
        return HttpError(400, "No links provided");
      }

      if isShutdown {
        var id, err := storage.CreateLinkSet(req.links, createOk);
        if err.Some? {
          return HttpError(500, "Internal server error");
        }
        var addErr := storage.AddPendingTask(id, req.links, nextOk);
        if addErr.Some? {
          return HttpError(500, "Internal server error");
        }

        var links: map<string, string> := map[];
        for i := 0 to |req.links|
          invariant links.Keys == set u | u in req.links[..i]
          invariant forall u :: u in links ==> links[u] == Pending
        {
          assert req.links[..i + 1] == req.links[..i] + [req.links[i]];
          links := links[req.links[i] := Pending];
        }
        assert req.links[..|req.links|] == req.links;
        assert links == AllPending(req.links);
        return Json(CheckResponse(links, id));
      }

      var statuses, id, err := checker.CheckLinks(req.links, probe, createOk, nextOk);
      if err.Some? {
        return HttpError(500, "Internal server error");
      }
      return Json(CheckResponse(statuses, id));
    }

    /** POST /report. An empty id list is refused; when no requested set is
        both stored and checked the answer is 404; otherwise the checked
        sets, in storage order, go to the PDF renderer, whose failure is a
        500. */
    method GetReport(httpMethod: string, body: Option<ReportRequest>, renderOk: bool)
      returns (reply: Reply)
      ensures httpMethod != MethodPost ==> reply == HttpError(405, "Method not allowed")
      ensures httpMethod == MethodPost && body.None? ==> reply == HttpError(400, "Invalid request body")
      ensures httpMethod == MethodPost && body.Some? && body.value.linksList == [] ==>
        reply == HttpError(400, "No link set IDs provided")
      ensures httpMethod == MethodPost && body.Some? && body.value.linksList != [] ==>
        var ids := body.value.linksList;
        var sets := SelectCompleted(storage.data.linkSets, set id | id in ids);
        reply == (if sets == [] then HttpError(404, "No completed link sets found")
                  else if renderOk then Pdf(sets)
                  else HttpError(500, "Failed to generate PDF"))
      ensures reply.Pdf? ==>
        && reply.sets != []
        && forall ls :: ls in reply.sets ==> ls in storage.data.linkSets && ls.checked && ls.id in body.value.linksList
    {
      if httpMethod != MethodPost {
        return HttpError(405, "Method not allowed");
      }
      if body.None? {
        return HttpError(400, "Invalid request body");
      }
      var req := body.value;
      if |req.linksList| == 0 {
        return HttpError(400, "No link set IDs provided");
      }

      var linkSets := storage.GetLinkSets(req.linksList);
      if |linkSets| == 0 {
        return HttpError(404, "No completed link sets found");
      }
      if !renderOk {
        return HttpError(500, "Failed to generate PDF");
      }
      return Pdf(linkSets);
    }
  }
}
