/** The bookkeeping of FileDownloader as a state machine over values.

    `urlRequests` and `downloadTaskMap` are the downloader's two tables. A
    request's identity (`===` in the source) is its `id`. The transport is a
    task-identifier allocator (`nextTask`). Cache probes issued by `fetch` and
    not yet answered wait in `lookups`, oldest first, as they do on the cache's
    serial queue. What the downloader does to the outside world (completion
    and progress callbacks, `resume` and `cancel` of a task) is appended to
    `effects` in the order it happens. */
module DownloadModel {
  import opened Common

  type Url = string
  type TaskId = nat
  type RequestId = nat

  /** `url.isFileURL`: the scheme is `file`. */
  predicate IsFileUrl(url: Url)
  {
    |url| >= 5 && url[..5] == "file:"
  }

  /** `FileDownloader.Request`; `hasProgress` says whether it carries a progress closure. */
  datatype Request = Request(id: RequestId, url: Url, hasProgress: bool)

  /** The value of `urlRequests[url]`: the download task, once there is one, and
      the waiting requests in the order they were fetched. */
  datatype Pending = Pending(task: Option<TaskId>, requests: seq<Request>)

  datatype Effect =
    | Completed(request: RequestId, data: Option<Bytes>)    // `completion(data)`
    | Progressed(request: RequestId, written: int, expected: int)  // `progress?(…)`
    | TaskResumed(task: TaskId)                             // `task.resume()`
    | TaskCancelled(task: TaskId)                           // `task.cancel()`

  datatype State = State(
    urlRequests: map<Url, Pending>,
    downloadTaskMap: map<TaskId, Url>,
    nextTask: TaskId,
    lookups: seq<Url>,
    effects: seq<Effect>)

  /** A new downloader: both tables empty, nothing issued. */
  const Initial := State(map[], map[], 0, [], [])

  /** `requests.forEach { $0.completion(data) }`: every request, once, in order. */
  function Completions(requests: seq<Request>, data: Option<Bytes>): (r: seq<Effect>)
    ensures |r| == |requests|
    ensures forall i :: 0 <= i < |requests| ==> r[i] == Completed(requests[i].id, data)
  {
    if requests == [] then []
    else Completions(requests[..|requests| - 1], data) + [Completed(requests[|requests| - 1].id, data)]
  }

  /** `requests.forEach { $0.progress?(progress) }`: every request that has a
      progress closure; the ratio is left as the two byte counts. The order
      is the list's order (`DownloadProperties.ProgressesAppend`). */
  function Progresses(requests: seq<Request>, written: int, expected: int): (r: seq<Effect>)
    ensures |r| <= |requests|
    ensures forall e :: e in r ==> e.Progressed? && e.written == written && e.expected == expected
    ensures forall e :: e in r ==> exists q :: q in requests && q.hasProgress && e.request == q.id
    ensures forall q :: q in requests && q.hasProgress ==> Progressed(q.id, written, expected) in r
  {
    if requests == [] then []
    else
      var last := requests[|requests| - 1];
      Progresses(requests[..|requests| - 1], written, expected)
        + (if last.hasProgress then [Progressed(last.id, written, expected)] else [])
  }

  /** `requests.firstIndex(where: { $0 === request })`. */
  function FirstIndex(requests: seq<Request>, id: RequestId): (k: Option<nat>)
    ensures k.Some? ==> k.value < |requests| && requests[k.value].id == id
    ensures k.Some? ==> forall j :: 0 <= j < k.value ==> requests[j].id != id
    ensures k.None? ==> forall j :: 0 <= j < |requests| ==> requests[j].id != id
  {
    if requests == [] then None
    else if requests[0].id == id then Some(0)
    else
      match FirstIndex(requests[1..], id)
      case None => None
      case Some(k) => Some(k + 1)
  }

  /** `downloadTaskMap` without the entry of `task`, when there is a task. */
  function Untask(m: map<TaskId, Url>, task: Option<TaskId>): map<TaskId, Url>
  {
    if task.Some? then m - {task.value} else m
  }

  /** `fetchCompletion(url:data:)`. */
  function AfterCompletion(s: State, url: Url, data: Option<Bytes>): State
  {
    if url !in s.urlRequests then s
    else
      var p := s.urlRequests[url];
      s.(urlRequests := s.urlRequests - {url},
         downloadTaskMap := Untask(s.downloadTaskMap, p.task),
         effects := s.effects + Completions(p.requests, data))
  }

  /** `fetchFail(url:isCancel:)`. */
  function AfterFail(s: State, url: Url, isCancel: bool): State
  {
    if url !in s.urlRequests then s
    else
      var p := s.urlRequests[url];
      s.(urlRequests := s.urlRequests - {url},
         downloadTaskMap := Untask(s.downloadTaskMap, p.task),
         effects := s.effects
           + (if isCancel && p.task.Some? then [TaskCancelled(p.task.value)] else [])
           + (if isCancel then [] else Completions(p.requests, None)))
  }

  /** `fetch(request:)`; `local` is what reading a file URL's path yields. */
  function AfterFetch(s: State, request: Request, local: Option<Bytes>): State
  {
    var url := request.url;
    if url in s.urlRequests then
      var p := s.urlRequests[url];
      s.(urlRequests := s.urlRequests[url := p.(requests := p.requests + [request])])
    else
      var s1 := s.(urlRequests := s.urlRequests[url := Pending(None, [request])]);
      if IsFileUrl(url) then
        if local.Some? then AfterCompletion(s1, url, local) else AfterFail(s1, url, false)
      else
        s1.(lookups := s1.lookups + [url])
  }

  /** `cancel(request:)`. */
  function AfterCancel(s: State, request: Request): State
  {
    var url := request.url;
    if url !in s.urlRequests then s
    else
      var p := s.urlRequests[url];
      match FirstIndex(p.requests, request.id)
      case None => s
      case Some(k) =>
        var rest := p.requests[..k] + p.requests[k + 1..];
        var s1 := s.(urlRequests := s.urlRequests[url := p.(requests := rest)]);
        if rest == [] then AfterFail(s1, url, true) else s1
  }

  /** The closure handed to the cache by `fetch`, run with the cache's answer
      for the oldest outstanding probe. */
  function AfterLookup(s: State, data: Option<Bytes>): State
    requires s.lookups != []
  {
    var url := s.lookups[0];
    var s1 := s.(lookups := s.lookups[1..]);
    if data.Some? then AfterCompletion(s1, url, data)
    else
      var task := s1.nextTask;
      var s2 := s1.(nextTask := task + 1, downloadTaskMap := s1.downloadTaskMap[task := url]);
      if url in s2.urlRequests then
        s2.(urlRequests := s2.urlRequests[url := s2.urlRequests[url].(task := Some(task))],
            effects := s2.effects + [TaskResumed(task)])
      else
        s2
  }

  /** `urlSession(_:downloadTask:didWriteData:…)`. */
  function AfterProgress(s: State, task: TaskId, written: int, expected: int): State
  {
    if task in s.downloadTaskMap && s.downloadTaskMap[task] in s.urlRequests then
      s.(effects := s.effects + Progresses(s.urlRequests[s.downloadTaskMap[task]].requests, written, expected))
    else
      s
  }

  /** `urlSession(_:downloadTask:didFinishDownloadingTo:)`; `data` is what the
      cache gives back for the URL's file after the downloaded file was moved in. */
  function AfterFinish(s: State, task: TaskId, data: Option<Bytes>): State
  {
    if task in s.downloadTaskMap then AfterCompletion(s, s.downloadTaskMap[task], data) else s
  }

  /** `urlSession(_:task:didCompleteWithError:)`. */
  function AfterError(s: State, task: TaskId, hasError: bool): State
  {
    if hasError && task in s.downloadTaskMap then AfterFail(s, s.downloadTaskMap[task], false) else s
  }

  /** Everything that can happen to the downloader: a call by its client, an
      answer of the cache, or a delegate callback of the transport. */
  datatype Event =
    | Fetch(request: Request, local: Option<Bytes>)
    | Cancel(request: Request)
    | LookupDone(data: Option<Bytes>)
    | WroteData(task: TaskId, written: int, expected: int)
    | FinishedDownloading(task: TaskId, data: Option<Bytes>)
    | CompletedWithError(task: TaskId, hasError: bool)

  function Step(s: State, e: Event): State
  {
    match e
    case Fetch(request, local) => AfterFetch(s, request, local)
    case Cancel(request) => AfterCancel(s, request)
    case LookupDone(data) => if s.lookups == [] then s else AfterLookup(s, data)
    case WroteData(task, written, expected) => AfterProgress(s, task, written, expected)
    case FinishedDownloading(task, data) => AfterFinish(s, task, data)
    case CompletedWithError(task, hasError) => AfterError(s, task, hasError)
  }

  function Run(s: State, events: seq<Event>): State
    decreases events
  {
    if events == [] then s else Run(Step(s, events[0]), events[1..])
  }

  /** The fetches of `requests`, in order, none of a file URL. */
  function Fetches(requests: seq<Request>): (events: seq<Event>)
    ensures |events| == |requests|
    ensures forall i :: 0 <= i < |requests| ==> events[i] == Fetch(requests[i], None)
  {
    if requests == [] then [] else [Fetch(requests[0], None)] + Fetches(requests[1..])
  }
}
