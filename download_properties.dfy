/** What FileDownloader's bookkeeping guarantees: coalescing, FIFO fan-out,
    silent cancellation, no-ops on absent entries, the invariants it keeps, and
    the one it keeps only while no request is cancelled during a cache probe. */
module DownloadProperties {
  import opened Common
  import opened DownloadModel

  /** Appending to an entry: the request goes last, and nothing else changes —
      no cache probe, no task. */
  lemma FetchCoalesces(s: State, request: Request, local: Option<Bytes>)
    requires request.url in s.urlRequests
    ensures var p := s.urlRequests[request.url];
      AfterFetch(s, request, local)
        == s.(urlRequests := s.urlRequests[request.url := Pending(p.task, p.requests + [request])])
  {
  }

  /** A URL with no entry that is not a file URL: one entry with no task and
      the single request, and one cache probe queued for it. */
  lemma FetchStartsLookup(s: State, request: Request, local: Option<Bytes>)
    requires request.url !in s.urlRequests && !IsFileUrl(request.url)
    ensures AfterFetch(s, request, local)
      == s.(urlRequests := s.urlRequests[request.url := Pending(None, [request])],
            lookups := s.lookups + [request.url])
  {
  }

  /** A file URL never reaches the cache or the transport: its request is
      completed at once with the file's contents, or with nil when they cannot
      be read (a failure that is not a cancel), and no entry remains. */
  lemma FileUrlBypass(s: State, request: Request, local: Option<Bytes>)
    requires request.url !in s.urlRequests && IsFileUrl(request.url)
    ensures AfterFetch(s, request, local) == s.(effects := s.effects + [Completed(request.id, local)])
  {
    var s1 := s.(urlRequests := s.urlRequests[request.url := Pending(None, [request])]);
    assert s1.urlRequests - {request.url} == s.urlRequests;
    assert Completions([request], local) == [Completed(request.id, local)];
  }

  /** A cache miss makes one task and maps it to the URL; it is attached and
      resumed only when the URL still has an entry, so a fetch cancelled during
      the probe starts no transfer. */
  lemma LookupMiss(s: State)
    requires s.lookups != []
    ensures var url, task, r := s.lookups[0], s.nextTask, AfterLookup(s, None);
      && r.nextTask == task + 1
      && r.downloadTaskMap == s.downloadTaskMap[task := url]
      && r.lookups == s.lookups[1..]
      && (url in s.urlRequests ==>
            r.urlRequests == s.urlRequests[url := s.urlRequests[url].(task := Some(task))]
            && r.effects == s.effects + [TaskResumed(task)])
      && (url !in s.urlRequests ==> r.urlRequests == s.urlRequests && r.effects == s.effects)
  {
  }

  /** `cancel` of a request that is not the last: only the first element with
      its identity leaves the list, the siblings keep their order, and nothing
      else changes. */
  lemma CancelKeepsSiblings(s: State, request: Request)
    requires request.url in s.urlRequests
    requires var p := s.urlRequests[request.url];
      FirstIndex(p.requests, request.id).Some? && |p.requests| > 1
    ensures var p := s.urlRequests[request.url];
      var k := FirstIndex(p.requests, request.id).value;
      && AfterCancel(s, request)
           == s.(urlRequests := s.urlRequests[request.url := p.(requests := p.requests[..k] + p.requests[k + 1..])])
      && (forall j :: 0 <= j < k ==> p.requests[j].id != request.id)
  {
  }

  /** `cancel` of a request that is not waiting changes nothing. */
  lemma CancelUnknownIsNoOp(s: State, request: Request)
    requires request.url in s.urlRequests ==> FirstIndex(s.urlRequests[request.url].requests, request.id).None?
    ensures AfterCancel(s, request) == s
  {
  }

  /** `cancel` of the last request tears the entry down silently: the task, if
      any, is cancelled, its mapping and the entry go, and no completion fires. */
  lemma CancelLastIsSilent(s: State, request: Request)
    requires request.url in s.urlRequests
    requires var p := s.urlRequests[request.url]; |p.requests| == 1 && p.requests[0].id == request.id
    ensures var p, r := s.urlRequests[request.url], AfterCancel(s, request);
      && r.urlRequests == s.urlRequests - {request.url}
      && r.downloadTaskMap == Untask(s.downloadTaskMap, p.task)
      && r.effects == s.effects + (if p.task.Some? then [TaskCancelled(p.task.value)] else [])
      && r.nextTask == s.nextTask && r.lookups == s.lookups
  {
    var p := s.urlRequests[request.url];
    assert p.requests[..0] + p.requests[1..] == [];
  }

  /** `fetchCompletion`: the entry and its task mapping go, and every waiting
      request is completed exactly once with the same data, in the order it was
      fetched, after everything already done. */
  lemma CompletionFansOut(s: State, url: Url, data: Option<Bytes>)
    requires url in s.urlRequests
    ensures var p, r := s.urlRequests[url], AfterCompletion(s, url, data);
      && r.urlRequests == s.urlRequests - {url}
      && r.downloadTaskMap == Untask(s.downloadTaskMap, p.task)
      && |r.effects| == |s.effects| + |p.requests|
      && r.effects[..|s.effects|] == s.effects
      && (forall i :: 0 <= i < |p.requests| ==> r.effects[|s.effects| + i] == Completed(p.requests[i].id, data))
      && r.nextTask == s.nextTask && r.lookups == s.lookups
  {
  }

  /** A failure that is not a cancel: the entry and its mapping go, the task is
      not cancelled, and every request is completed with nil, in order. */
  lemma FailFansOut(s: State, url: Url)
    requires url in s.urlRequests
    ensures var p, r := s.urlRequests[url], AfterFail(s, url, false);
      && r.urlRequests == s.urlRequests - {url}
      && r.downloadTaskMap == Untask(s.downloadTaskMap, p.task)
      && r.effects == s.effects + Completions(p.requests, None)
      && r.nextTask == s.nextTask && r.lookups == s.lookups
  {
  }

  /** `fetchCompletion` and `fetchFail` of a URL with no entry do nothing. */
  lemma AbsentEntryIsNoOp(s: State, url: Url, data: Option<Bytes>, isCancel: bool)
    requires url !in s.urlRequests
    ensures AfterCompletion(s, url, data) == s && AfterFail(s, url, isCancel) == s
  {
  }

  /** Transport callbacks for a task with no mapping do nothing. */
  lemma UnmappedTaskIgnored(s: State, task: TaskId, written: int, expected: int, data: Option<Bytes>, hasError: bool)
    requires task !in s.downloadTaskMap
    ensures AfterProgress(s, task, written, expected) == s
    ensures AfterFinish(s, task, data) == s
    ensures AfterError(s, task, hasError) == s
  {
  }

  /** The progress fan-out of a list is that of its front followed by that of
      its back: the calls follow the list's order. */
  lemma {:induction false} ProgressesAppend(front: seq<Request>, back: seq<Request>, written: int, expected: int)
    ensures Progresses(front + back, written, expected)
      == Progresses(front, written, expected) + Progresses(back, written, expected)
    decreases |back|
  {
    if back == [] {
      assert front + back == front;
    } else {
      var all := front + back;
      var init := back[..|back| - 1];
      assert all[..|all| - 1] == front + init;
      assert all[|all| - 1] == back[|back| - 1];
      ProgressesAppend(front, init, written, expected);
    }
  }

  /** A request with a progress closure is called right after the calls of
      the requests before it. */
  lemma {:induction false} ProgressesAt(requests: seq<Request>, i: nat, written: int, expected: int)
    requires i < |requests| && requests[i].hasProgress
    ensures var r, before := Progresses(requests, written, expected), Progresses(requests[..i], written, expected);
      |before| < |r| && r[|before|] == Progressed(requests[i].id, written, expected)
    decreases |requests|
  {
    var init := requests[..|requests| - 1];
    if i < |init| {
      ProgressesAt(init, i, written, expected);
      assert init[..i] == requests[..i];
    }
  }

  /** Of two requests with progress closures, the earlier one in the list is
      called first. */
  lemma ProgressesInOrder(requests: seq<Request>, i: nat, j: nat, written: int, expected: int)
    requires i < j < |requests| && requests[i].hasProgress && requests[j].hasProgress
    ensures var r := Progresses(requests, written, expected);
      exists k1, k2 :: 0 <= k1 < k2 < |r|
        && r[k1] == Progressed(requests[i].id, written, expected)
        && r[k2] == Progressed(requests[j].id, written, expected)
  {
    ProgressesAt(requests, i, written, expected);
    ProgressesAt(requests, j, written, expected);
    ProgressesAt(requests[..j], i, written, expected);
    assert requests[..j][..i] == requests[..i];
  }

  /** Progress of a mapped task reaches every current request of its URL that
      has a progress closure, and changes nothing else. */
  lemma ProgressReachesRequests(s: State, task: TaskId, written: int, expected: int, q: Request)
    requires task in s.downloadTaskMap && s.downloadTaskMap[task] in s.urlRequests
    requires q in s.urlRequests[s.downloadTaskMap[task]].requests && q.hasProgress
    ensures var r := AfterProgress(s, task, written, expected);
      && r.(effects := s.effects) == s
      && r.effects[..|s.effects|] == s.effects
      && Progressed(q.id, written, expected) in r.effects[|s.effects|..]
  {
    var r := AfterProgress(s, task, written, expected);
    assert r.effects[|s.effects|..] == Progresses(s.urlRequests[s.downloadTaskMap[task]].requests, written, expected);
  }

  /** Progress of a mapped task reaches the URL's requests in the order they
      were fetched: of two with progress closures, the earlier is called first,
      and both after everything already done. */
  lemma ProgressInFetchOrder(s: State, task: TaskId, written: int, expected: int, i: nat, j: nat)
    requires task in s.downloadTaskMap && s.downloadTaskMap[task] in s.urlRequests
    requires var requests := s.urlRequests[s.downloadTaskMap[task]].requests;
      i < j < |requests| && requests[i].hasProgress && requests[j].hasProgress
    ensures var requests, r := s.urlRequests[s.downloadTaskMap[task]].requests, AfterProgress(s, task, written, expected);
      exists k1, k2 :: |s.effects| <= k1 < k2 < |r.effects|
        && r.effects[k1] == Progressed(requests[i].id, written, expected)
        && r.effects[k2] == Progressed(requests[j].id, written, expected)
  {
    var requests := s.urlRequests[s.downloadTaskMap[task]].requests;
    var ps := Progresses(requests, written, expected);
    ProgressesInOrder(requests, i, j, written, expected);
    var k1, k2 :| 0 <= k1 < k2 < |ps|
      && ps[k1] == Progressed(requests[i].id, written, expected)
      && ps[k2] == Progressed(requests[j].id, written, expected);
    var r := AfterProgress(s, task, written, expected);
    assert r.effects[|s.effects| + k1] == ps[k1] && r.effects[|s.effects| + k2] == ps[k2];
  }

  // ----- The invariant every reachable state keeps

  /** Every entry has a request, every request waits under its own URL, task
      identifiers in the map were handed out, and an entry's task is mapped
      back to its URL. */
  ghost predicate WellFormed(s: State)
  {
    && (forall u :: u in s.urlRequests ==> s.urlRequests[u].requests != [])
    && (forall u, q :: u in s.urlRequests && q in s.urlRequests[u].requests ==> q.url == u)
    && (forall t :: t in s.downloadTaskMap ==> t < s.nextTask)
    && (forall u :: u in s.urlRequests && s.urlRequests[u].task.Some? ==>
          var t := s.urlRequests[u].task.value; t in s.downloadTaskMap && s.downloadTaskMap[t] == u)
  }

  lemma InitialWellFormed()
    ensures WellFormed(Initial)
  {
  }

  lemma RemoveEntryWellFormed(s: State, url: Url, effects: seq<Effect>)
    requires WellFormed(s) && url in s.urlRequests
    ensures WellFormed(s.(urlRequests := s.urlRequests - {url},
                          downloadTaskMap := Untask(s.downloadTaskMap, s.urlRequests[url].task),
                          effects := effects))
  {
  }

  lemma CompletionWellFormed(s: State, url: Url, data: Option<Bytes>)
    requires WellFormed(s)
    ensures WellFormed(AfterCompletion(s, url, data))
  {
    if url in s.urlRequests {
      RemoveEntryWellFormed(s, url, AfterCompletion(s, url, data).effects);
    }
  }

  lemma FailWellFormed(s: State, url: Url, isCancel: bool)
    requires WellFormed(s)
    ensures WellFormed(AfterFail(s, url, isCancel))
  {
    if url in s.urlRequests {
      RemoveEntryWellFormed(s, url, AfterFail(s, url, isCancel).effects);
    }
  }

  lemma {:induction false} StepWellFormed(s: State, e: Event)
    requires WellFormed(s)
    ensures WellFormed(Step(s, e))
  {
    match e
    case Fetch(request, local) =>
      var url := request.url;
      if url !in s.urlRequests {
        var s1 := s.(urlRequests := s.urlRequests[url := Pending(None, [request])]);
        assert WellFormed(s1);
        CompletionWellFormed(s1, url, local);
        FailWellFormed(s1, url, false);
      }
    case Cancel(request) =>
      var url := request.url;
      if url in s.urlRequests {
        var p := s.urlRequests[url];
        var k := FirstIndex(p.requests, request.id);
        if k.Some? {
          var rest := p.requests[..k.value] + p.requests[k.value + 1..];
          var s1 := s.(urlRequests := s.urlRequests[url := p.(requests := rest)]);
          if rest == [] {
            assert s1.urlRequests - {url} == s.urlRequests - {url};
            RemoveEntryWellFormed(s, url, Step(s, e).effects);
          } else {
            forall q | q in rest ensures q.url == url {
              assert q in p.requests;
            }
          }
        }
      }
    case LookupDone(data) =>
      if s.lookups != [] && data.Some? {
        CompletionWellFormed(s.(lookups := s.lookups[1..]), s.lookups[0], data);
      }
    case WroteData(_, _, _) =>
    case FinishedDownloading(task, data) =>
      if task in s.downloadTaskMap {
        CompletionWellFormed(s, s.downloadTaskMap[task], data);
      }
    case CompletedWithError(task, hasError) =>
      if hasError && task in s.downloadTaskMap {
        FailWellFormed(s, s.downloadTaskMap[task], false);
      }
  }

  /** Every state a downloader reaches is well formed. */
  lemma {:induction false} RunWellFormed(s: State, events: seq<Event>)
    requires WellFormed(s)
    ensures WellFormed(Run(s, events))
    decreases events
  {
    if events != [] {
      StepWellFormed(s, events[0]);
      RunWellFormed(Step(s, events[0]), events[1..]);
    }
  }

  // ----- The invariant that needs "no cancel during a cache probe"

  /** Every mapped task is the task of a live entry of its URL, the probes are
      for distinct live URLs, and an entry has no task exactly while its probe
      is outstanding. */
  ghost predicate Coherent(s: State)
  {
    && WellFormed(s)
    && (forall t :: t in s.downloadTaskMap ==>
          s.downloadTaskMap[t] in s.urlRequests && s.urlRequests[s.downloadTaskMap[t]].task == Some(t))
    && (forall i, j :: 0 <= i < j < |s.lookups| ==> s.lookups[i] != s.lookups[j])
    && (forall i :: 0 <= i < |s.lookups| ==> s.lookups[i] in s.urlRequests)
    && (forall u :: u in s.urlRequests ==> (s.urlRequests[u].task.None? <==> u in s.lookups))
  }

  /** In a coherent state no URL has two tasks. */
  lemma OneTaskPerUrl(s: State, t1: TaskId, t2: TaskId)
    requires Coherent(s)
    requires t1 in s.downloadTaskMap && t2 in s.downloadTaskMap
    requires s.downloadTaskMap[t1] == s.downloadTaskMap[t2]
    ensures t1 == t2
  {
  }

  /** A cancel is harmless to coherence unless it hits a URL whose probe is outstanding. */
  predicate CancelOutsideLookup(s: State, e: Event)
  {
    e.Cancel? ==> e.request.url !in s.lookups
  }

  /** `Coherent` except that the entry of `url` may have no task without a
      probe outstanding: the state just before that entry is torn down. */
  ghost predicate CoherentApartFrom(s: State, url: Url)
  {
    && WellFormed(s)
    && (forall t :: t in s.downloadTaskMap ==>
          s.downloadTaskMap[t] in s.urlRequests && s.urlRequests[s.downloadTaskMap[t]].task == Some(t))
    && (forall i, j :: 0 <= i < j < |s.lookups| ==> s.lookups[i] != s.lookups[j])
    && (forall i :: 0 <= i < |s.lookups| ==> s.lookups[i] in s.urlRequests)
    && (forall u :: u in s.urlRequests && u != url ==> (s.urlRequests[u].task.None? <==> u in s.lookups))
  }

  lemma RemoveEntryCoherent(s: State, url: Url, effects: seq<Effect>)
    requires CoherentApartFrom(s, url) && url in s.urlRequests && url !in s.lookups
    ensures Coherent(s.(urlRequests := s.urlRequests - {url},
                        downloadTaskMap := Untask(s.downloadTaskMap, s.urlRequests[url].task),
                        effects := effects))
  {
    RemoveEntryWellFormed(s, url, effects);
  }

  lemma FetchCoherent(s: State, request: Request, local: Option<Bytes>)
    requires Coherent(s)
    ensures Coherent(AfterFetch(s, request, local))
  {
    StepWellFormed(s, Fetch(request, local));
    var url := request.url;
    if url !in s.urlRequests {
      var r := AfterFetch(s, request, local);
      assert url !in s.lookups;
      if IsFileUrl(url) {
        FileUrlBypass(s, request, local);
      } else {
        FetchStartsLookup(s, request, local);
        assert forall i :: 0 <= i < |s.lookups| ==> s.lookups[i] != url;
      }
    }
  }

  lemma CancelCoherent(s: State, request: Request)
    requires Coherent(s) && request.url !in s.lookups
    ensures Coherent(AfterCancel(s, request))
  {
    StepWellFormed(s, Cancel(request));
    var url := request.url;
    if url in s.urlRequests {
      var p := s.urlRequests[url];
      var k := FirstIndex(p.requests, request.id);
      if k.Some? {
        var rest := p.requests[..k.value] + p.requests[k.value + 1..];
        var s1 := s.(urlRequests := s.urlRequests[url := p.(requests := rest)]);
        if rest == [] {
          assert s1.urlRequests - {url} == s.urlRequests - {url};
          RemoveEntryCoherent(s, url, AfterCancel(s, request).effects);
        }
      }
    }
  }

  lemma LookupCoherent(s: State, data: Option<Bytes>)
    requires Coherent(s) && s.lookups != []
    ensures Coherent(AfterLookup(s, data))
  {
    StepWellFormed(s, LookupDone(data));
    var url := s.lookups[0];
    var s1 := s.(lookups := s.lookups[1..]);
    assert url !in s1.lookups by {
      forall i | 0 <= i < |s1.lookups| ensures s1.lookups[i] != url {
        assert s1.lookups[i] == s.lookups[i + 1];
      }
    }
    assert forall u :: u in s1.lookups ==> u in s.lookups;
    if data.Some? {
      assert CoherentApartFrom(s1, url) by {
        forall i, j | 0 <= i < j < |s1.lookups| ensures s1.lookups[i] != s1.lookups[j] {
          assert s1.lookups[i] == s.lookups[i + 1] && s1.lookups[j] == s.lookups[j + 1];
        }
      }
      RemoveEntryCoherent(s1, url, AfterLookup(s, data).effects);
    } else {
      assert s.nextTask !in s.downloadTaskMap;
      LookupMiss(s);
      var r := AfterLookup(s, data);
      forall i, j | 0 <= i < j < |r.lookups| ensures r.lookups[i] != r.lookups[j] {
        assert r.lookups[i] == s.lookups[i + 1] && r.lookups[j] == s.lookups[j + 1];
      }
    }
  }

  lemma {:induction false} StepCoherent(s: State, e: Event)
    requires Coherent(s) && CancelOutsideLookup(s, e)
    ensures Coherent(Step(s, e))
  {
    match e
    case Fetch(request, local) => FetchCoherent(s, request, local);
    case Cancel(request) => CancelCoherent(s, request);
    case LookupDone(data) =>
      if s.lookups != [] {
        LookupCoherent(s, data);
      }
    case WroteData(_, _, _) =>
    case FinishedDownloading(task, data) =>
      if task in s.downloadTaskMap {
        RemoveEntryCoherent(s, s.downloadTaskMap[task], Step(s, e).effects);
      }
    case CompletedWithError(task, hasError) =>
      if hasError && task in s.downloadTaskMap {
        RemoveEntryCoherent(s, s.downloadTaskMap[task], Step(s, e).effects);
      }
  }

  /** A run in which no request is cancelled while its URL's probe is
      outstanding keeps every task attached to a live entry. */
  ghost predicate CancelsOutsideLookups(s: State, events: seq<Event>)
    decreases events
  {
    events != [] ==> CancelOutsideLookup(s, events[0]) && CancelsOutsideLookups(Step(s, events[0]), events[1..])
  }

  lemma {:induction false} RunCoherent(s: State, events: seq<Event>)
    requires Coherent(s) && CancelsOutsideLookups(s, events)
    ensures Coherent(Run(s, events))
    decreases events
  {
    if events != [] {
      StepCoherent(s, events[0]);
      RunCoherent(Step(s, events[0]), events[1..]);
    }
  }

  // ----- Whole scenarios

  lemma RunCons(s: State, e: Event, events: seq<Event>)
    ensures Run(s, [e] + events) == Run(Step(s, e), events)
  {
    assert ([e] + events)[1..] == events;
  }

  lemma RunTwo(s: State, e1: Event, e2: Event)
    ensures Run(s, [e1, e2]) == Step(Step(s, e1), e2)
  {
    var s1 := Step(s, e1);
    assert [e1, e2][1..] == [e2] && [e2][1..] == [];
    assert Run(s1, [e2]) == Run(Step(s1, e2), []);
  }

  lemma RunThree(s: State, e1: Event, e2: Event, e3: Event)
    ensures Run(s, [e1, e2, e3]) == Step(Step(Step(s, e1), e2), e3)
  {
    assert [e1, e2, e3][1..] == [e2, e3];
    assert Run(s, [e1, e2, e3]) == Run(Step(s, e1), [e2, e3]);
    RunTwo(Step(s, e1), e2, e3);
  }

  lemma {:induction false} FetchesAppend(s: State, requests: seq<Request>, url: Url)
    requires url in s.urlRequests
    requires forall i :: 0 <= i < |requests| ==> requests[i].url == url
    ensures var p := s.urlRequests[url];
      Run(s, Fetches(requests)) == s.(urlRequests := s.urlRequests[url := p.(requests := p.requests + requests)])
    decreases requests
  {
    var p := s.urlRequests[url];
    if requests == [] {
      assert p.requests + requests == p.requests;
      assert s.urlRequests[url := p] == s.urlRequests;
    } else {
      FetchCoalesces(s, requests[0], None);
      var s1 := AfterFetch(s, requests[0], None);
      RunCons(s, Fetch(requests[0], None), Fetches(requests[1..]));
      FetchesAppend(s1, requests[1..], url);
      assert p.requests + [requests[0]] + requests[1..] == p.requests + requests;
      assert s1.urlRequests[url := Pending(p.task, p.requests + requests)]
          == s.urlRequests[url := Pending(p.task, p.requests + requests)];
    }
  }

  /** Single flight: any number of fetches of one URL with no entry start one
      cache probe, hold every request in order, and start no task. */
  lemma SingleFlight(s: State, requests: seq<Request>, url: Url)
    requires url !in s.urlRequests && !IsFileUrl(url)
    requires requests != [] && forall i :: 0 <= i < |requests| ==> requests[i].url == url
    ensures Run(s, Fetches(requests))
      == s.(urlRequests := s.urlRequests[url := Pending(None, requests)], lookups := s.lookups + [url])
  {
    var s1 := AfterFetch(s, requests[0], None);
    assert Fetches(requests)[1..] == Fetches(requests[1..]);
    FetchesAppend(s1, requests[1..], url);
    assert [requests[0]] + requests[1..] == requests;
  }

  /** FIFO fan-out: when the single probe hits, the requests are completed in
      the order they were fetched, all with the cached bytes, and the
      downloader is left as it was before. */
  lemma FifoFanOut(s: State, requests: seq<Request>, url: Url, data: Bytes)
    requires url !in s.urlRequests && !IsFileUrl(url) && s.lookups == []
    requires requests != [] && forall i :: 0 <= i < |requests| ==> requests[i].url == url
    ensures Step(Run(s, Fetches(requests)), LookupDone(Some(data)))
      == s.(effects := s.effects + Completions(requests, Some(data)))
  {
    SingleFlight(s, requests, url);
    var s1 := Run(s, Fetches(requests));
    var s2 := s1.(lookups := s1.lookups[1..]);
    assert s1.lookups == [url] && s2.lookups == [];
    assert Step(s1, LookupDone(Some(data))) == AfterCompletion(s2, url, Some(data));
    assert s2.urlRequests - {url} == s.urlRequests;
  }

  /** Cancellation silence: the sole request of a URL, cancelled during its
      transfer, aborts the transfer and is never called back. */
  lemma CancelSoleAbortsTransfer(s: State, a: Request)
    requires WellFormed(s) && a.url !in s.urlRequests && !IsFileUrl(a.url) && s.lookups == []
    ensures Run(s, [Fetch(a, None), LookupDone(None), Cancel(a)])
      == s.(nextTask := s.nextTask + 1,
            effects := s.effects + [TaskResumed(s.nextTask), TaskCancelled(s.nextTask)])
  {
    var t := s.nextTask;
    FetchStartsLookup(s, a, None);
    var s1 := Step(s, Fetch(a, None));
    LookupMiss(s1);
    var s2 := Step(s1, LookupDone(None));
    assert s2.urlRequests == s.urlRequests[a.url := Pending(Some(t), [a])];
    CancelLastIsSilent(s2, a);
    var s3 := Step(s2, Cancel(a));
    assert s3.urlRequests == s.urlRequests;
    assert t !in s.downloadTaskMap;
    assert s3.downloadTaskMap == s.downloadTaskMap;
    assert s3.effects == s.effects + [TaskResumed(t), TaskCancelled(t)];
    assert Run(s, [Fetch(a, None), LookupDone(None), Cancel(a)]) == s3 by {
      RunThree(s, Fetch(a, None), LookupDone(None), Cancel(a));
    }
  }

  lemma {:induction false} RunAppend(s: State, first: seq<Event>, rest: seq<Event>)
    ensures Run(s, first + rest) == Run(Run(s, first), rest)
    decreases first
  {
    if first == [] {
      assert first + rest == rest;
    } else {
      assert (first + rest)[1..] == first[1..] + rest;
      RunAppend(Step(s, first[0]), first[1..], rest);
    }
  }

  /** Two fetches of one URL and a cache miss: one task, resumed once, shared
      by both requests. */
  lemma SharedTransfer(s: State, a: Request, b: Request)
    requires a.url !in s.urlRequests && !IsFileUrl(a.url) && s.lookups == [] && b.url == a.url
    ensures Run(s, [Fetch(a, None), Fetch(b, None), LookupDone(None)])
      == s.(urlRequests := s.urlRequests[a.url := Pending(Some(s.nextTask), [a, b])],
            downloadTaskMap := s.downloadTaskMap[s.nextTask := a.url],
            nextTask := s.nextTask + 1,
            effects := s.effects + [TaskResumed(s.nextTask)])
  {
    FetchStartsLookup(s, a, None);
    var s1 := Step(s, Fetch(a, None));
    FetchCoalesces(s1, b, None);
    var s2 := Step(s1, Fetch(b, None));
    assert [a] + [b] == [a, b];
    assert s2.urlRequests == s.urlRequests[a.url := Pending(None, [a, b])];
    LookupMiss(s2);
    var s3 := Step(s2, LookupDone(None));
    RunThree(s, Fetch(a, None), Fetch(b, None), LookupDone(None));
  }

  /** The first of two requests sharing a task is cancelled, then the task
      finishes: only the second is completed. */
  lemma CancelOneThenFinish(s: State, a: Request, b: Request, t: TaskId, data: Option<Bytes>)
    requires a.url in s.urlRequests && s.urlRequests[a.url] == Pending(Some(t), [a, b])
    requires t in s.downloadTaskMap && s.downloadTaskMap[t] == a.url && a.id != b.id
    ensures Run(s, [Cancel(a), FinishedDownloading(t, data)])
      == s.(urlRequests := s.urlRequests - {a.url},
            downloadTaskMap := s.downloadTaskMap - {t},
            effects := s.effects + [Completed(b.id, data)])
  {
    CancelKeepsSiblings(s, a);
    var s1 := Step(s, Cancel(a));
    assert [a, b][..0] + [a, b][1..] == [b];
    assert s1 == s.(urlRequests := s.urlRequests[a.url := Pending(Some(t), [b])]);
    var s2 := Step(s1, FinishedDownloading(t, data));
    CompletionFansOut(s1, a.url, data);
    assert s2.urlRequests == s.urlRequests - {a.url};
    assert Completions([b], data) == [Completed(b.id, data)];
    RunTwo(s, Cancel(a), FinishedDownloading(t, data));
  }

  /** A sibling survives: of two requests sharing a transfer, cancelling one
      leaves the transfer running, and when it finishes only the other is
      completed. */
  lemma SiblingSurvivesCancel(s: State, a: Request, b: Request, data: Option<Bytes>)
    requires WellFormed(s) && a.url !in s.urlRequests && !IsFileUrl(a.url) && s.lookups == []
    requires b.url == a.url && a.id != b.id
    ensures Run(s, [Fetch(a, None), Fetch(b, None), LookupDone(None), Cancel(a), FinishedDownloading(s.nextTask, data)])
      == s.(nextTask := s.nextTask + 1,
            effects := s.effects + [TaskResumed(s.nextTask), Completed(b.id, data)])
  {
    var t := s.nextTask;
    var first, rest := [Fetch(a, None), Fetch(b, None), LookupDone(None)], [Cancel(a), FinishedDownloading(t, data)];
    SharedTransfer(s, a, b);
    var s3 := Run(s, first);
    CancelOneThenFinish(s3, a, b, t, data);
    assert first + rest == [Fetch(a, None), Fetch(b, None), LookupDone(None), Cancel(a), FinishedDownloading(t, data)];
    RunAppend(s, first, rest);
    assert t !in s.downloadTaskMap;
    assert s3.urlRequests - {a.url} == s.urlRequests;
    assert s3.downloadTaskMap - {t} == s.downloadTaskMap;
    assert s.effects + [TaskResumed(t)] + [Completed(b.id, data)] == s.effects + [TaskResumed(t), Completed(b.id, data)];
  }

  /** Without the precondition of `RunCoherent` the source starts two transfers
      for one URL: a request cancelled during its cache probe, then a new fetch
      of the same URL, leaves two probes; both miss, and both tasks are resumed.
      The first task's mapping is never attached to an entry, and the state is
      no longer coherent. */
  lemma CancelDuringLookupStartsTwoTransfers(a: Request, b: Request)
    requires a.url == b.url && !IsFileUrl(a.url)
    ensures var r := Run(Initial, [Fetch(a, None), Cancel(a), Fetch(b, None), LookupDone(None), LookupDone(None)]);
      && r.effects == [TaskResumed(0), TaskResumed(1)]
      && r.downloadTaskMap == map[0 := a.url, 1 := a.url]
      && r.urlRequests == map[a.url := Pending(Some(1), [b])]
      && !Coherent(r)
  {
    var url := a.url;
    FetchStartsLookup(Initial, a, None);
    var s1 := Step(Initial, Fetch(a, None));
    assert s1.lookups == [url];
    CancelLastIsSilent(s1, a);
    var s2 := Step(s1, Cancel(a));
    assert s2.urlRequests == map[] && s2.lookups == [url] && s2.effects == [];
    FetchStartsLookup(s2, b, None);
    var s3 := Step(s2, Fetch(b, None));
    assert s3.lookups == [url, url];
    LookupMiss(s3);
    var s4 := Step(s3, LookupDone(None));
    assert s4.urlRequests == map[url := Pending(Some(0), [b])];
    assert s4.lookups == [url];
    LookupMiss(s4);
    var s5 := Step(s4, LookupDone(None));
    assert s5.urlRequests == map[url := Pending(Some(1), [b])];
    assert s5.downloadTaskMap == map[0 := url, 1 := url];
    assert s5.effects == [TaskResumed(0), TaskResumed(1)];
    var first, rest := [Fetch(a, None), Cancel(a), Fetch(b, None)], [LookupDone(None), LookupDone(None)];
    assert first + rest == [Fetch(a, None), Cancel(a), Fetch(b, None), LookupDone(None), LookupDone(None)];
    RunAppend(Initial, first, rest);
    RunThree(Initial, Fetch(a, None), Cancel(a), Fetch(b, None));
    RunTwo(s3, LookupDone(None), LookupDone(None));
    assert s5.urlRequests[s5.downloadTaskMap[0]].task != Some(0);
  }
}
