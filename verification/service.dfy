/** The link checker (internal/service/checker.go): URL normalisation, the
    classification of one probe, the per-batch probe map, and the two
    sequences that write probe results into the store.

    The HTTP GET is an oracle `probe` from the request target to what the
    request produced: a transport error (DNS, connection, TLS, the client's
    timeout) or a response status code. */
module Service {
  import opened Models
  import opened Ledger
  import St = Storage

  datatype ProbeOutcome = TransportError | Response(statusCode: int)

  /** The oracle standing for one round of HTTP GETs. */
  type Prober = string -> ProbeOutcome

  predicate HasScheme(url: string) {
    "http://" <= url || "https://" <= url
  }

  /** The request target for a link: the link itself when it already names
      http or https, otherwise the link behind "https://". */
  function NormalizeURL(url: string): (r: string)
    ensures HasScheme(r)
    ensures r == url <==> HasScheme(url)
    ensures |r| >= |url| && r[|r| - |url|..] == url
    ensures r != url ==> r == "https://" + url
  {
    if !("http://" <= url) && !("https://" <= url) then "https://" + url else url
  }

  /** Normalising twice is normalising once. */
  lemma NormalizeIdempotent(url: string)
    ensures NormalizeURL(NormalizeURL(url)) == NormalizeURL(url)
  {
  }

  /** The status of one link: "available" exactly when the GET of its
      normalised form returned a code in [200, 300); a transport error or any
      other code gives "not_available". */
  function CheckURL(url: string, probe: Prober): (s: string)
    ensures s == Available || s == NotAvailable
    ensures s == Available <==>
      probe(NormalizeURL(url)).Response? && 200 <= probe(NormalizeURL(url)).statusCode < 300
  {
    match probe(NormalizeURL(url))
    case TransportError => NotAvailable
    case Response(code) => if code >= 200 && code < 300 then Available else NotAvailable
  }

  /** The probe map of a batch: one key per distinct original link. */
  function ProbeMap(links: seq<string>, probe: Prober): (r: map<string, string>)
    ensures r.Keys == set u | u in links
    ensures forall u :: u in r ==> r[u] == Available || r[u] == NotAvailable
  {
    map u | u in links :: CheckURL(u, probe)
  }

  /** Probe every link and collect the statuses under the links as given
      (not normalised). The source runs one goroutine per link and writes
      disjoint keys under a mutex; here the links are probed in turn. */
  method CheckLinksParallel(links: seq<string>, probe: Prober) returns (statuses: map<string, string>)
    ensures statuses.Keys == set u | u in links
    ensures forall u :: u in statuses ==> statuses[u] == CheckURL(u, probe)
    ensures forall u :: u in statuses ==> statuses[u] == Available || statuses[u] == NotAvailable
    ensures statuses == ProbeMap(links, probe)
  {
    statuses := map[];
    for i := 0 to |links|
      invariant statuses.Keys == set u | u in links[..i]
      invariant forall u :: u in statuses ==> statuses[u] == CheckURL(u, probe)
    {
      assert links[..i + 1] == links[..i] + [links[i]];
      var status := CheckURL(links[i], probe);
      statuses := statuses[links[i] := status];
    }
    assert links[..|links|] == links;
  }

  class Checker {
    const storage: St.Storage

    constructor (s: St.Storage)
      ensures storage == s
    {
      storage := s;
    }

    /** Allocate a set, probe its links, record the results. A failed
        allocation returns (empty, 0, error) before any probe; a failed
        recording returns (empty, 0, error) after the in-memory update. */
    method CheckLinks(links: seq<string>, probe: Prober, createOk: bool, updateOk: bool)
      returns (statuses: map<string, string>, id: int, err: Option<Error>)
      modifies storage
      ensures storage.pending == old(storage.pending)
      ensures storage.pendingOnDisk == old(storage.pendingOnDisk)
      ensures !createOk ==>
        && statuses == map[] && id == 0 && err == Some(WriteFailed)
        && storage.data == Allocate(old(storage.data), links)
      ensures createOk ==>
        storage.data == Update(Allocate(old(storage.data), links), old(storage.data.lastId) + 1, ProbeMap(links, probe))
      ensures createOk && updateOk ==>
        && err == None && id == old(storage.data.lastId) + 1
        && statuses == ProbeMap(links, probe)
        && storage.dataOnDisk == Some(storage.data)
      ensures createOk && !updateOk ==> statuses == map[] && id == 0 && err == Some(WriteFailed)
    {
      var newId, createErr := storage.CreateLinkSet(links, createOk);
      if createErr.Some? {
        return map[], 0, createErr;
      }

      statuses := CheckLinksParallel(links, probe);

      var updateErr := storage.UpdateLinkSet(newId, statuses, updateOk);
      if updateErr.Some? {
        return map[], 0, updateErr;
      }
      return statuses, newId, None;
    }

    /** Probe the links of a deferred task and record them under its id;
        nothing is allocated. */
    method ProcessPendingTask(id: int, links: seq<string>, probe: Prober, saveOk: bool)
      returns (err: Option<Error>)
      modifies storage
      ensures storage.data == Update(old(storage.data), id, ProbeMap(links, probe))
      ensures storage.pending == old(storage.pending)
      ensures storage.pendingOnDisk == old(storage.pendingOnDisk)
      ensures err == St.SaveResult(saveOk)
      ensures saveOk ==> storage.dataOnDisk == Some(storage.data)
    {
      var statuses := CheckLinksParallel(links, probe);
      err := storage.UpdateLinkSet(id, statuses, saveOk);
    }
  }
}
