/**
 * The bookkeeping of the network thread: downloads wait in a pending list
 * until the thread picks them up, then live in a map from their transfer
 * handle until they finish or are aborted, and each ends with one call of
 * its completion callback with a `ResourceResponse`.
 *
 * libcurl itself is outside the model: transfer handles are numbers handed
 * out in order, and what libcurl reports about a finished transfer arrives
 * as a `TransferInfo`. Completion callbacks are closure ids, and running one
 * appends a `Delivery` to the thread's record of deliveries.
 */
module NetThreads {
  import opened Wrappers
  import opened Int64
  import opened Deltas
  import opened Journals
  import opened ResourceRequests

  /** `net::Result`. */
  datatype NetResult = Ok | Error | Timeout | Aborted

  /** A libcurl result code. */
  type CurlCode = int

  /** `CURLE_OK`. */
  const CurlOk: CurlCode := 0
  /** `CURLE_ABORTED_BY_CALLBACK`. */
  const CurlAbortedByCallback: CurlCode := 42

  /** `CurlCodeToNetResult`. */
  function CurlCodeToNetResult(code: CurlCode): (r: NetResult)
    ensures r == NetResult.Ok <==> code == CurlOk
    ensures r == Aborted <==> code == CurlAbortedByCallback
    ensures r == Error <==> code != CurlOk && code != CurlAbortedByCallback
  {
    if code == CurlOk then NetResult.Ok
    else if code == CurlAbortedByCallback then Aborted
    else Error
  }

  /** No libcurl code is reported as a timeout. */
  lemma NoCodeMeansTimeout(code: CurlCode)
    ensures CurlCodeToNetResult(code) != Timeout
  {
  }

  datatype ResourceResponse = ResourceResponse(
    result: NetResult,
    code: int32,
    finalUrl: string,
    headers: map<string, string>,
    data: seq<byte>,
    timingQueue: TimeDelta,
    timingConnect: TimeDelta,
    timingStartTransfer: TimeDelta,
    timingTotal: TimeDelta)

  /** A default-constructed response: `kOk`, code -1, no data, every timing -1 s. */
  function DefaultResponse(): (r: ResourceResponse)
    ensures r.result == NetResult.Ok && r.code == -1 && r.finalUrl == [] && r.headers == map[] && r.data == []
    ensures r.timingQueue.us == -1_000_000 && r.timingTotal.us == -1_000_000
  {
    var unknown := Seconds(-1);
    ResourceResponse(NetResult.Ok, -1, [], map[], [], unknown, unknown, unknown, unknown)
  }

  /**
   * The response an aborted download gets: `kAborted`, code -1, and the next
   * six members value-initialised, so the queue, connect and start-transfer
   * timings are zero. The initialiser list stops there, so the total timing
   * keeps its default of -1 s.
   */
  function AbortedResponse(): (r: ResourceResponse)
    ensures r.result == Aborted && r.code == -1 && r.finalUrl == [] && r.data == [] && r.headers == map[]
    ensures IsZero(r.timingQueue) && IsZero(r.timingConnect) && IsZero(r.timingStartTransfer)
    ensures r.timingTotal.us == -1_000_000
  {
    ResourceResponse(Aborted, -1, [], map[], [], NoTimeout, NoTimeout, NoTimeout, Seconds(-1))
  }

  /** `DownloadInfo`, without the libcurl header list. */
  datatype DownloadInfo = DownloadInfo(
    request: ResourceRequest,
    maxResponseSize: Option<nat>,
    response: ResourceResponse,
    onDone: ClosureId)

  /** A transfer handle (`CURL*`). */
  type Handle = nat

  /** One run of a completion callback. */
  datatype Delivery = Delivery(callback: ClosureId, response: ResourceResponse)

  /** What libcurl reports about a finished transfer; `None` where its query fails. */
  datatype TransferInfo = TransferInfo(
    httpCode: int64,
    effectiveUrl: Option<string>,
    headers: seq<(string, string)>,
    queueTime: Option<int64>,
    connectTime: Option<int64>,
    startTransferTime: Option<int64>,
    totalTime: Option<int64>)

  /** The size cap of a download holds for the data it has received. */
  predicate WithinLimit(d: DownloadInfo)
  {
    d.maxResponseSize.Some? ==> |d.response.data| <= d.maxResponseSize.value
  }

  /** Whether the write callback accepts `size` more bytes for `d`. */
  predicate AcceptsWrite(d: DownloadInfo, size: nat)
  {
    !(d.maxResponseSize.Some? && |d.response.data| + size > d.maxResponseSize.value)
  }

  /** `d` with `chunk` appended to its response data. */
  function Appended(d: DownloadInfo, chunk: seq<byte>): (e: DownloadInfo)
    ensures e.response.data == d.response.data + chunk
    ensures e.(response := e.response.(data := d.response.data)) == d
  {
    d.(response := d.response.(data := d.response.data + chunk))
  }

  /** An accepted write keeps a download within its cap, and a download with no cap accepts every write. */
  lemma AcceptedWriteStaysWithinLimit(d: DownloadInfo, chunk: seq<byte>)
    requires AcceptsWrite(d, |chunk|)
    ensures WithinLimit(Appended(d, chunk))
    ensures d.maxResponseSize.None? ==> AcceptsWrite(d, |chunk|)
  {
  }

  /**
   * `active` after the downloads in `pending` have been inserted under the
   * handles `next`, `next + 1`, ... in order.
   */
  function Activated(active: map<Handle, DownloadInfo>, next: Handle, pending: seq<DownloadInfo>): (m: map<Handle, DownloadInfo>)
    decreases |pending|
  {
    if pending == [] then active else Activated(active[next := pending[0]], next + 1, pending[1..])
  }

  /**
   * With every existing handle below `next`, activating keeps the existing
   * downloads, and download `j` of the pending list is found under handle
   * `next + j`; no other handle appears.
   */
  lemma {:induction false} ActivatedContents(active: map<Handle, DownloadInfo>, next: Handle, pending: seq<DownloadInfo>)
    requires forall h :: h in active ==> h < next
    ensures forall h :: h in active ==> h in Activated(active, next, pending) && Activated(active, next, pending)[h] == active[h]
    ensures forall h :: next <= h < next + |pending| ==> h in Activated(active, next, pending) && Activated(active, next, pending)[h] == pending[h - next]
    ensures forall h :: h in Activated(active, next, pending) ==> h in active || next <= h < next + |pending|
    decreases |pending|
  {
    if pending != [] {
      var a' := active[next := pending[0]];
      ActivatedContents(a', next + 1, pending[1..]);
      var m := Activated(active, next, pending);
      assert m == Activated(a', next + 1, pending[1..]);
      forall h | next <= h < next + |pending|
        ensures h in m && m[h] == pending[h - next]
      {
        if h > next {
          assert pending[1..][h - (next + 1)] == pending[h - next];
        } else {
          assert next in a' && a'[next] == pending[0];
        }
      }
    }
  }

  /** The response headers after libcurl's header list is inserted: an existing name keeps its value. */
  function InsertHeaders(m: map<string, string>, headers: seq<(string, string)>): (r: map<string, string>)
    decreases |headers|
  {
    if headers == [] then m
    else InsertHeaders(if headers[0].0 in m then m else m[headers[0].0 := headers[0].1], headers[1..])
  }

  /**
   * Inserting keeps every header already present, and a new name gets the
   * value of its first occurrence in the list.
   */
  lemma {:induction false} InsertHeadersKeepsFirst(m: map<string, string>, headers: seq<(string, string)>, i: nat)
    requires i < |headers| && headers[i].0 !in m
    requires forall j :: 0 <= j < i ==> headers[j].0 != headers[i].0
    ensures headers[i].0 in InsertHeaders(m, headers) && InsertHeaders(m, headers)[headers[i].0] == headers[i].1
    decreases |headers|
  {
    var m' := if headers[0].0 in m then m else m[headers[0].0 := headers[0].1];
    if i == 0 {
      InsertHeadersKeepsExisting(m', headers[1..]);
    } else {
      assert headers[0].0 != headers[i].0;
      assert headers[1..][i - 1] == headers[i];
      InsertHeadersKeepsFirst(m', headers[1..], i - 1);
    }
  }

  /** Inserting never replaces a header already present. */
  lemma {:induction false} InsertHeadersKeepsExisting(m: map<string, string>, headers: seq<(string, string)>)
    ensures forall k :: k in m ==> k in InsertHeaders(m, headers) && InsertHeaders(m, headers)[k] == m[k]
    decreases |headers|
  {
    if headers != [] {
      var m' := if headers[0].0 in m then m else m[headers[0].0 := headers[0].1];
      InsertHeadersKeepsExisting(m', headers[1..]);
    }
  }

  /** A timing libcurl reported, in microseconds, or the value it had. */
  function Timing(reported: Option<int64>, current: TimeDelta): (t: TimeDelta)
    ensures reported.Some? ==> t == Microseconds(reported.value)
    ensures reported.None? ==> t == current
  {
    if reported.Some? then Microseconds(reported.value) else current
  }

  /**
   * The response a finished download delivers: its result; the HTTP code,
   * narrowed to `int`, only when the result is `kOk` and -1 otherwise; the
   * effective URL or an empty one; libcurl's headers inserted; the data
   * received; and the timings libcurl reported.
   */
  function Finished(response: ResourceResponse, result: NetResult, info: TransferInfo): (r: ResourceResponse)
    ensures r.result == result
    ensures result != NetResult.Ok ==> r.code == -1
    ensures result == NetResult.Ok ==> r.code == ToInt32(info.httpCode as int)
    ensures r.data == response.data
  {
    ResourceResponse(
      result,
      if result == NetResult.Ok then ToInt32(info.httpCode as int) else -1,
      if info.effectiveUrl.Some? then info.effectiveUrl.value else [],
      InsertHeaders(response.headers, info.headers),
      response.data,
      Timing(info.queueTime, response.timingQueue),
      Timing(info.connectTime, response.timingConnect),
      Timing(info.startTransferTime, response.timingStartTransfer),
      Timing(info.totalTime, response.timingTotal))
  }

  /** Abort deliveries for the downloads under `order`, in that order. */
  function Aborts(active: map<Handle, DownloadInfo>, order: seq<Handle>): (ds: seq<Delivery>)
    requires forall k :: 0 <= k < |order| ==> order[k] in active
    ensures |ds| == |order|
    ensures forall k :: 0 <= k < |order| ==> ds[k] == Delivery(active[order[k]].onDone, AbortedResponse())
  {
    seq(|order|, k requires 0 <= k < |order| => Delivery(active[order[k]].onDone, AbortedResponse()))
  }

  class NetThreadImpl {
    /** `pending_add_downloads_`. */
    var pending: seq<DownloadInfo>
    /** `active_downloads_`. */
    var active: map<Handle, DownloadInfo>
    /** `not_modified_`: false while downloads wait to be picked up. */
    var notModified: bool
    /** The next handle libcurl hands out. */
    var nextHandle: Handle
    /** The completion callbacks run so far, in order. */
    var delivered: seq<Delivery>

    /** Every active handle was handed out, every active download keeps its cap, and a pending download has not started. */
    predicate Valid()
      reads this
    {
      (forall h :: h in active ==> h < nextHandle && WithinLimit(active[h]))
      && (forall i :: 0 <= i < |pending| ==> pending[i].response == DefaultResponse())
    }

    /** A started thread with nothing to do. */
    constructor ()
      ensures Valid() && pending == [] && active == map[] && notModified && delivered == []
    {
      pending := [];
      active := map[];
      notModified := true;
      nextHandle := 0;
      delivered := [];
    }

    /** `EnqueueDownload`: the download waits at the end of the pending list, and the thread is told about it. */
    method EnqueueDownload(request: ResourceRequest, maxResponseSize: Option<nat>, onDone: ClosureId)
      requires Valid()
      modifies this
      ensures Valid()
      ensures pending == old(pending) + [DownloadInfo(request, maxResponseSize, DefaultResponse(), onDone)]
      ensures !notModified
      ensures active == old(active) && nextHandle == old(nextHandle) && delivered == old(delivered)
    {
      pending := pending + [DownloadInfo(request, maxResponseSize, DefaultResponse(), onDone)];
      notModified := false;
    }

    /**
     * `ProcessPendingActions_NetThread`: if downloads were enqueued since
     * the last time, every pending download starts under a new handle, in
     * order, and the pending list is emptied; the flag is set either way.
     */
    method ProcessPendingActions()
      requires Valid()
      modifies this
      ensures Valid() && notModified && delivered == old(delivered)
      ensures old(notModified) ==> pending == old(pending) && active == old(active) && nextHandle == old(nextHandle)
      ensures !old(notModified) ==>
                pending == [] && nextHandle == old(nextHandle) + |old(pending)|
                && active == Activated(old(active), old(nextHandle), old(pending))
    {
      if !notModified {
        ActivatedContents(active, nextHandle, pending);
        var i := 0;
        while i < |pending|
          invariant 0 <= i <= |pending| && pending == old(pending)
          invariant nextHandle == old(nextHandle) + i && delivered == old(delivered)
          invariant forall h :: h in active ==> h < nextHandle && WithinLimit(active[h])
          invariant Activated(active, nextHandle, pending[i..]) == Activated(old(active), old(nextHandle), pending)
        {
          assert pending[i..][1..] == pending[i + 1..];
          active := active[nextHandle := pending[i]];
          nextHandle := nextHandle + 1;
          i := i + 1;
        }
        assert pending[i..] == [];
        pending := [];
      }
      notModified := true;
    }

    /**
     * The write callback of download `h`: `n` items of `l` bytes each. If
     * the download has a cap and the data would exceed it, nothing is
     * stored and 0 is returned, which fails the transfer; otherwise the
     * bytes are appended and their count returned.
     */
    method Write(h: Handle, n: nat, l: nat, chunk: seq<byte>) returns (written: nat)
      requires Valid() && h in active && |chunk| == n * l
      modifies this
      ensures Valid()
      ensures AcceptsWrite(old(active[h]), n * l) ==> written == n * l && active == old(active)[h := Appended(old(active[h]), chunk)]
      ensures !AcceptsWrite(old(active[h]), n * l) ==> written == 0 && active == old(active)
      ensures pending == old(pending) && nextHandle == old(nextHandle) && delivered == old(delivered)
    {
      var info := active[h];
      if info.maxResponseSize.Some? && |info.response.data| + n * l > info.maxResponseSize.value {
        return 0;
      }
      AcceptedWriteStaysWithinLimit(info, chunk);
      active := active[h := Appended(info, chunk)];
      written := n * l;
    }

    /**
     * `DownloadFinished_NetThread`: the download must be active; its
     * callback receives the finished response, and the download is removed.
     */
    method DownloadFinished(h: Handle, result: NetResult, info: TransferInfo)
      requires Valid() && h in active
      modifies this
      ensures Valid()
      ensures delivered == old(delivered) + [Delivery(old(active[h]).onDone, Finished(old(active[h]).response, result, info))]
      ensures active == old(active) - {h}
      ensures pending == old(pending) && nextHandle == old(nextHandle)
    {
      var download := active[h];
      var headers := download.response.headers;
      var i := 0;
      while i < |info.headers|
        invariant 0 <= i <= |info.headers|
        invariant InsertHeaders(headers, info.headers[i..]) == InsertHeaders(download.response.headers, info.headers)
      {
        assert info.headers[i..][1..] == info.headers[i + 1..];
        if info.headers[i].0 !in headers {
          headers := headers[info.headers[i].0 := info.headers[i].1];
        }
        i := i + 1;
      }
      assert info.headers[i..] == [];
      var response := Finished(download.response, result, info).(headers := headers);
      delivered := delivered + [Delivery(download.onDone, response)];
      active := active - {h};
    }

    /**
     * `AbortAllDownloads_NetThread`: every active download's callback
     * receives the aborted response, once, in the order of the map, and
     * then no download is active. `order` is that order.
     */
    method AbortAllDownloads() returns (ghost order: seq<Handle>)
      requires Valid()
      modifies this
      ensures Valid() && active == map[]
      ensures |order| == |old(active)|
      ensures forall h :: h in old(active) <==> h in order
      ensures forall i, j :: 0 <= i < j < |order| ==> order[i] != order[j]
      ensures delivered == old(delivered) + Aborts(old(active), order)
      ensures pending == old(pending) && nextHandle == old(nextHandle)
    {
      var rest := active.Keys;
      order := [];
      while rest != {}
        invariant active == old(active) && pending == old(pending) && nextHandle == old(nextHandle)
        invariant rest <= active.Keys
        invariant forall k :: 0 <= k < |order| ==> order[k] in active && order[k] !in rest
        invariant forall h :: h in active ==> h in rest || h in order
        invariant forall i, j :: 0 <= i < j < |order| ==> order[i] != order[j]
        invariant |order| + |rest| == |active.Keys|
        invariant delivered == old(delivered) + Aborts(active, order)
        decreases |rest|
      {
        var h :| h in rest;
        delivered := delivered + [Delivery(active[h].onDone, AbortedResponse())];
        order := order + [h];
        rest := rest - {h};
      }
      active := map[];
    }
  }

  /** A download enqueued and picked up starts under the next handle with its request and an unstarted response. */
  method EnqueueThenProcess(t: NetThreadImpl, request: ResourceRequest, maxResponseSize: Option<nat>, onDone: ClosureId)
    returns (h: Handle)
    requires t.Valid() && t.pending == []
    modifies t
    ensures t.Valid() && t.pending == [] && h in t.active
    ensures t.active[h] == DownloadInfo(request, maxResponseSize, DefaultResponse(), onDone)
  {
    h := t.nextHandle;
    t.EnqueueDownload(request, maxResponseSize, onDone);
    ghost var old_active := t.active;
    t.ProcessPendingActions();
    ActivatedContents(old_active, h, [DownloadInfo(request, maxResponseSize, DefaultResponse(), onDone)]);
  }
}
