/** FileDownloader as an object: its two tables are fields that its methods
    update in place, and each method is proved to move the object exactly as
    the corresponding step of `DownloadModel` moves its state. The transport's
    delegate callbacks and the cache's answer to a probe are methods called
    when they arrive. */
module Downloader {
  import opened Common
  import opened FileCache
  import opened FileNames
  import opened DownloadModel
  import DownloadProperties

  /** `requests.forEach { $0.completion(data) }`. */
  method FanOutCompletions(requests: seq<Request>, data: Option<Bytes>) returns (events: seq<Effect>)
    ensures events == Completions(requests, data)
  {
    events := [];
    var i := 0;
    while i < |requests|
      invariant 0 <= i <= |requests|
      invariant events == Completions(requests[..i], data)
    {
      assert requests[..i + 1][..i] == requests[..i];
      events := events + [Completed(requests[i].id, data)];
      i := i + 1;
    }
    assert requests[..|requests|] == requests;
  }

  /** `requests.forEach { $0.progress?(progress) }`. */
  method FanOutProgress(requests: seq<Request>, written: int, expected: int) returns (events: seq<Effect>)
    ensures events == Progresses(requests, written, expected)
  {
    events := [];
    var i := 0;
    while i < |requests|
      invariant 0 <= i <= |requests|
      invariant events == Progresses(requests[..i], written, expected)
    {
      assert requests[..i + 1][..i] == requests[..i];
      if requests[i].hasProgress {
        events := events + [Progressed(requests[i].id, written, expected)];
      }
      i := i + 1;
    }
    assert requests[..|requests|] == requests;
  }

  /** `requests.firstIndex(where: { $0 === request })`. */
  method FindRequest(requests: seq<Request>, id: RequestId) returns (index: Option<nat>)
    ensures index == FirstIndex(requests, id)
  {
    var i := 0;
    while i < |requests|
      invariant 0 <= i <= |requests|
      invariant forall j :: 0 <= j < i ==> requests[j].id != id
    {
      if requests[i].id == id {
        return Some(i);
      }
      i := i + 1;
    }
    return None;
  }

  class FileDownloader {
    const cacheController: FileCacheController
    /** MD5 of a URL's absolute string, a foreign call taken as given. */
    const md5: Url -> Digest
    var urlRequests: map<Url, Pending>
    var downloadTaskMap: map<TaskId, Url>
    /** The identifier the transport gives the next download task. */
    var nextTask: TaskId
    /** URLs whose cache probe is outstanding, oldest first. */
    var lookups: seq<Url>
    /** Callbacks made and task calls issued so far, in order. */
    var effects: seq<Effect>

    ghost function Model(): State
      reads this
    {
      State(urlRequests, downloadTaskMap, nextTask, lookups, effects)
    }

    constructor (cacheController: FileCacheController, md5: Url -> Digest)
      ensures this.cacheController == cacheController && this.md5 == md5
      ensures Model() == Initial
    {
      this.cacheController := cacheController;
      this.md5 := md5;
      urlRequests := map[];
      downloadTaskMap := map[];
      nextTask := 0;
      lookups := [];
      effects := [];
    }

    /** `fetch(request:)`: joins the entry of the URL, or makes one and then
        either reads a file URL (`local`) or asks the cache. */
    method Fetch(request: Request, local: Option<Bytes>)
      modifies this
      ensures Model() == AfterFetch(old(Model()), request, local)
    {
      var url := request.url;
      if url in urlRequests {
        var p := urlRequests[url];
        urlRequests := urlRequests[url := p.(requests := p.requests + [request])];
        return;
      }
      urlRequests := urlRequests[url := Pending(None, [request])];
      if IsFileUrl(url) {
        if local.Some? {
          FetchCompletion(url, local);
        } else {
          FetchFail(url, false);
        }
        return;
      }
      lookups := lookups + [url];
    }

    /** `cancel(request:)`. */
    method Cancel(request: Request)
      modifies this
      ensures Model() == AfterCancel(old(Model()), request)
    {
      var url := request.url;
      if url in urlRequests {
        var p := urlRequests[url];
        var index := FindRequest(p.requests, request.id);
        if index.Some? {
          var k := index.value;
          urlRequests := urlRequests[url := p.(requests := p.requests[..k] + p.requests[k + 1..])];
          if urlRequests[url].requests == [] {
            FetchFail(url, true);
          }
        }
      }
    }

    /** `fetchCompletion(url:data:)`. */
    method FetchCompletion(url: Url, data: Option<Bytes>)
      modifies this
      ensures Model() == AfterCompletion(old(Model()), url, data)
    {
      if url !in urlRequests {
        return;
      }
      var p := urlRequests[url];
      if p.task.Some? {
        downloadTaskMap := downloadTaskMap - {p.task.value};
      }
      urlRequests := urlRequests - {url};
      var events := FanOutCompletions(p.requests, data);
      effects := effects + events;
    }

    /** `fetchFail(url:isCancel:)`. */
    method FetchFail(url: Url, isCancel: bool)
      modifies this
      ensures Model() == AfterFail(old(Model()), url, isCancel)
    {
      if url !in urlRequests {
        return;
      }
      var p := urlRequests[url];
      if p.task.Some? {
        if isCancel {
          effects := effects + [TaskCancelled(p.task.value)];
        }
        downloadTaskMap := downloadTaskMap - {p.task.value};
      }
      urlRequests := urlRequests - {url};
      if !isCancel {
        var events := FanOutCompletions(p.requests, None);
        effects := effects + events;
      }
    }

    /** The cache answers the oldest probe: the closure `fetch` handed to
        `get`, with the `get` itself (which dates a present file `now`). */
    method CacheLookupDone(now: int)
      requires lookups != []
      modifies this, cacheController
      ensures var name := FileName(md5, old(lookups)[0]);
        && cacheController.files == Touched(old(cacheController.files), name, now)
        && Model() == AfterLookup(old(Model()), Lookup(old(cacheController.files), name))
    {
      var url := lookups[0];
      lookups := lookups[1..];
      var data := cacheController.Get(FileName(md5, url), now);
      if data.Some? {
        FetchCompletion(url, data);
      } else {
        var task := nextTask;
        nextTask := nextTask + 1;
        downloadTaskMap := downloadTaskMap[task := url];
        if url in urlRequests {
          urlRequests := urlRequests[url := urlRequests[url].(task := Some(task))];
          effects := effects + [TaskResumed(task)];
        }
      }
    }

    /** `urlSession(_:downloadTask:didWriteData:totalBytesWritten:totalBytesExpectedToWrite:)`. */
    method DidWriteData(task: TaskId, written: int, expected: int)
      modifies this
      ensures Model() == AfterProgress(old(Model()), task, written, expected)
    {
      if task in downloadTaskMap && downloadTaskMap[task] in urlRequests {
        var events := FanOutProgress(urlRequests[downloadTaskMap[task]].requests, written, expected);
        effects := effects + events;
      }
    }

    /** `urlSession(_:downloadTask:didFinishDownloadingTo:)`: for a mapped task,
        moves the downloaded file (`location`) into the cache under the URL's
        name, reads it back at `now`, and completes the URL with what was read. */
    method DidFinishDownloading(task: TaskId, location: Option<Entry>, ioOk: bool, now: int)
      modifies this, cacheController
      ensures task !in old(downloadTaskMap) ==>
        Model() == old(Model()) && cacheController.files == old(cacheController.files)
      ensures task in old(downloadTaskMap) ==>
        var name := FileName(md5, old(downloadTaskMap)[task]);
        var moved := Moved(old(cacheController.files), name, location, ioOk);
        && cacheController.files == Touched(moved, name, now)
        && Model() == AfterFinish(old(Model()), task, Lookup(moved, name))
    {
      if task in downloadTaskMap {
        var url := downloadTaskMap[task];
        var name := FileName(md5, url);
        cacheController.Move(location, name, ioOk);
        var data := cacheController.Get(name, now);
        FetchCompletion(url, data);
      }
    }

    /** `urlSession(_:task:didCompleteWithError:)`. */
    method DidCompleteWithError(task: TaskId, hasError: bool)
      modifies this
      ensures Model() == AfterError(old(Model()), task, hasError)
    {
      if hasError && task in downloadTaskMap {
        FetchFail(downloadTaskMap[task], false);
      }
    }
  }

  /** The cache file name is a function of the URL alone: a URL downloaded by
      one downloader is served from the cache, with no transfer, by a later
      downloader over the same directory. */
  method CacheHitAcrossRuns(cachesDirectory: string, directoryName: string, md5: Url -> Digest,
                            request: Request, bytes: Bytes, now: int)
    returns (firstRun: seq<Effect>, secondRun: seq<Effect>)
    requires !IsFileUrl(request.url)
    ensures firstRun == [TaskResumed(0), Completed(request.id, Some(bytes))]
    ensures secondRun == [Completed(request.id, Some(bytes))]
  {
    var url, name := request.url, FileName(md5, request.url);
    var cache := new FileCacheController(cachesDirectory, directoryName, 0, map[]);
    var first := new FileDownloader(cache, md5);
    DownloadProperties.FetchStartsLookup(Initial, request, None);
    first.Fetch(request, None);
    first.CacheLookupDone(now);
    assert first.urlRequests == map[url := Pending(Some(0), [request])];
    first.DidFinishDownloading(0, Some(Entry(bytes, Some(now))), true, now);
    assert Completions([request], Some(bytes)) == [Completed(request.id, Some(bytes))];
    firstRun := first.effects;

    var reopened := new FileCacheController(cachesDirectory, directoryName, 0, cache.files);
    var second := new FileDownloader(reopened, md5);
    second.Fetch(request, None);
    assert reopened.files[name].data == bytes;
    second.CacheLookupDone(now + 1);
    secondRun := second.effects;
  }
}
