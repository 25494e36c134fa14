/** The media client of lib/services/media-service.ts: one multipart POST per
    upload with progress reporting, and the per-category listing. Neither call
    checks the admin role. */
module MediaService {
  import opened Common
  import opened Entities
  import opened Http

  /** An axios upload progress event; `total` is absent when the length is unknown. */
  datatype ProgressEvent = ProgressEvent(loaded: nat, total: Option<nat>)

  const MediaPath: string := "/admin/media"

  /** `Math.round(loaded * 100 / total)` for non-negative operands: the integer
      nearest to the percentage, halves rounded up. */
  function RoundedPercent(loaded: nat, total: nat): (r: int)
    requires total > 0
    ensures 2 * r * total <= 200 * loaded + total < 2 * (r + 1) * total
  {
    var a, b := 200 * loaded + total, 2 * total;
    var q := a / b;
    assert q * b <= a < (q + 1) * b;
    q
  }

  lemma MulLeftMono(a: int, b: int, t: nat)
    requires a <= b
    ensures a * t <= b * t
  {
  }

  /** For `0 <= loaded <= total` the percentage lies in 0..100. */
  lemma PercentInRange(loaded: nat, total: nat)
    requires 0 < total && loaded <= total
    ensures 0 <= RoundedPercent(loaded, total) <= 100
  {
    var r := RoundedPercent(loaded, total);
    if r > 100 {
      MulLeftMono(101, r, total);
    }
    if r < 0 {
      MulLeftMono(r + 1, 0, total);
    }
  }

  /** A finished transfer reports exactly 100. */
  lemma CompleteIsHundred(total: nat)
    requires 0 < total
    ensures RoundedPercent(total, total) == 100
  {
    var r := RoundedPercent(total, total);
    PercentInRange(total, total);
    if r < 100 {
      MulLeftMono(r + 1, 100, total);
    }
  }

  /** More bytes sent never reports a smaller percentage. */
  lemma PercentMonotone(l1: nat, l2: nat, total: nat)
    requires 0 < total && l1 <= l2
    ensures RoundedPercent(l1, total) <= RoundedPercent(l2, total)
  {
    var r1, r2 := RoundedPercent(l1, total), RoundedPercent(l2, total);
    if r1 > r2 {
      MulLeftMono(r2 + 1, r1, total);
    }
  }

  /** The `onUploadProgress` handler: the value passed to `onProgress`, if it is
      called at all. */
  function ProgressReport(hasCallback: bool, event: ProgressEvent): (r: Option<int>)
    ensures r.Some? <==> hasCallback && event.total.Some? && event.total.value != 0
    ensures r.Some? ==> r.value == RoundedPercent(event.loaded, event.total.value)
  {
    if hasCallback && event.total.Some? && event.total.value != 0 then
      Some(RoundedPercent(event.loaded, event.total.value))
    else
      None
  }

  /** The values `onProgress` is called with, in order, for a stream of events. */
  function Reports(hasCallback: bool, events: seq<ProgressEvent>): (reports: seq<int>)
    ensures |reports| <= |events|
  {
    if events == [] then []
    else
      (match ProgressReport(hasCallback, events[0])
       case Some(p) => [p]
       case None => [])
      + Reports(hasCallback, events[1..])
  }

  /** Without a callback nothing is reported. */
  lemma {:induction false} NoCallbackNoReports(events: seq<ProgressEvent>)
    ensures Reports(false, events) == []
  {
    if events != [] {
      NoCallbackNoReports(events[1..]);
    }
  }

  /** Every reported value is a percentage when no event overshoots its total. */
  lemma {:induction false} ReportsInRange(hasCallback: bool, events: seq<ProgressEvent>)
    requires forall i :: 0 <= i < |events| && events[i].total.Some? ==> events[i].loaded <= events[i].total.value
    ensures forall p :: p in Reports(hasCallback, events) ==> 0 <= p <= 100
  {
    if events != [] {
      ReportsInRange(hasCallback, events[1..]);
      var e := events[0];
      if hasCallback && e.total.Some? && e.total.value != 0 {
        PercentInRange(e.loaded, e.total.value);
      }
    }
  }

  /** `uploadMedia`: fetch the ID token, build the form (file part, then the
      metadata part), POST it, and report progress. `events` are the transport's
      progress events and `reply` the outcome of the POST. `reported` lists the
      calls made to `onProgress`. */
  method UploadMedia(net: Network, env: Env, file: FileInfo, metadata: MediaMetadata,
                     hasCallback: bool, events: seq<ProgressEvent>, reply: Outcome<Response<()>>)
    returns (r: Outcome<()>, reported: seq<int>)
    modifies net
    ensures env.session.Throw? ==> r == Throw(env.session.exn) && reported == [] && net.sent == old(net.sent)
    ensures env.session.Ok? ==>
      && net.sent == old(net.sent) + [AxiosRequest(Post, env.apiUrl + MediaPath,
                                                   [BearerIdToken(env.session.value), Header("Content-Type", "multipart/form-data")],
                                                   MultipartBody([FilePart("file", file), MetadataPart("metadata", metadata)]))]
      && reported == Reports(hasCallback, events)
      && (r.Ok? <==> reply.Ok?)
      && (reply.Throw? ==> r.exn == reply.exn)
  {
    var headers := IdTokenHeaders(env.session);
    if headers.Throw? {
      return Throw(headers.exn), [];
    }
    var contentType := Header("Content-Type", "multipart/form-data");
    assert headers.value + [contentType] == [BearerIdToken(env.session.value), contentType];
    var form := [FilePart("file", file), MetadataPart("metadata", metadata)];
    net.Send(AxiosRequest(Post, env.apiUrl + MediaPath, headers.value + [contentType], MultipartBody(form)));
    reported := Reports(hasCallback, events);
    r := if reply.Ok? then Ok(()) else Throw(reply.exn);
  }

  /** `getMediaByCategory`: GET `/admin/media/<categoryId>` with the ID token. */
  method GetMediaByCategory<T>(net: Network, env: Env, categoryId: string, reply: Outcome<Response<seq<T>>>)
    returns (r: Outcome<seq<T>>)
    modifies net
    ensures env.session.Throw? ==> r == Throw(env.session.exn) && net.sent == old(net.sent)
    ensures env.session.Ok? ==>
      && net.sent == old(net.sent) + [AxiosRequest(Get, env.apiUrl + MediaPath + "/" + categoryId,
                                                   [BearerIdToken(env.session.value)], NoBody)]
      && r == DataOf(reply)
  {
    var headers := IdTokenHeaders(env.session);
    if headers.Throw? {
      return Throw(headers.exn);
    }
    assert headers.value == [BearerIdToken(env.session.value)];
    net.Send(AxiosRequest(Get, env.apiUrl + MediaPath + "/" + categoryId, headers.value, NoBody));
    r := DataOf(reply);
  }
}
