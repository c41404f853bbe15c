# FileExtension: download coalescing, disk cache and temporary files

This project models the three pieces of the FileExtension library that hold
state, and proves what they guarantee.

- **FileCacheController** keeps files in one directory under the user's caches
  directory. `get` reads a file and dates it "now". `store` writes a file.
  `delete` and `move` remove and place files. `clearTimeout` removes every file
  modified `timeout` seconds or more ago. `clearAll` empties the directory.
  The directory is a map from file name to bytes and modification date
  (`FileCache.Files`). The controller is a class whose `files` field its
  methods update (module `FileCache`).
- **FileDownloader** coalesces requests by URL. The first `fetch` of a URL
  makes an entry in `urlRequests` and probes the cache. Later fetches of the
  same URL join that entry. A cache hit completes every waiting request. A
  miss starts one download task, recorded in `downloadTaskMap`. Completion,
  failure and progress fan out to the entry's requests in the order they were
  fetched. Cancelling the last request of a URL cancels its task silently.
  Module `DownloadModel` states each operation as a function on a `State`
  value. `DownloadProperties` proves the guarantees about those functions and
  about runs of events. Module `Downloader` is the class itself: every method
  is proved to move the object exactly as the matching function moves the
  state. The cache file name of a URL is the MD5 digest in lower-case hex
  (module `FileNames`).
- **TemporaryFile** holds bytes in memory until the shared temporary cache
  ("tw.kamikuo.temp", timeout 0, emptied when it is made) has stored them. After
  that it reads them back from the cache. Disposing of it deletes its own file
  (module `TempFile`).

Several things in the library are asynchronous: the cache's serial I/O queue,
the hops to the main queue, and the transport's delegate callbacks. Each one
is modelled as an event that happens at once. Cache probes that `fetch` has
issued but the cache has not answered wait in `lookups`, oldest first, as they
do on the serial queue. Completion and progress callbacks and the
`resume`/`cancel` calls on tasks are appended to `effects` in the order they
happen.

Some inputs come from outside the library and are parameters: the clock
(`now`, whole seconds), the outcome of a file-system call (`ioOk`), the
contents of a file URL (`local`), the downloaded file (`location`), the MD5
function and the UUID. Task identifiers
are handed out by a counter (`nextTask`).

One invariant holds only conditionally. `Coherent` says that every mapped
task belongs to a live entry of its URL. `DownloadProperties.RunCoherent`
proves that it is kept by every run in which no request is cancelled while its
URL's cache probe is still outstanding. Without that condition the code as
written can start two transfers for one URL.
`DownloadProperties.CancelDuringLookupStartsTwoTransfers` shows how: fetch,
cancel, fetch again, then both probes miss. The model follows the code here.
The unconditional invariant `WellFormed` holds in every reachable state
(`DownloadProperties.RunWellFormed`).

## Model

| member | source | states |
|---|---|---|
| `FileCache.JoinPath` | FileExtension/Sources/FileCacheController.swift:23 | the path is the directory, one slash, then the name, with the length that implies |
| `FileCache.JoinPathInjective` | FileExtension/Sources/FileCacheController.swift:31-33 | within one directory, distinct file names give distinct paths |
| `FileCache.Lookup` | FileExtension/Sources/FileCacheController.swift:38-44 | `get` yields bytes exactly when the file is present, and then the file's bytes |
| `FileCache.Touched` | FileExtension/Sources/FileCacheController.swift:39-41 | `get` keeps every file and its bytes, dates a present file `now`, and leaves every other file unchanged |
| `FileCache.Stored` | FileExtension/Sources/FileCacheController.swift:52 | a successful `store` adds or replaces the named file with the bytes dated `now`, and leaves every other file unchanged |
| `FileCache.Moved` | FileExtension/Sources/FileCacheController.swift:66-71 | `move` adds the source under the name exactly when the source exists, the name is free and the file system succeeds; otherwise nothing changes; existing files never change |
| `FileCache.Swept` | FileExtension/Sources/FileCacheController.swift:76-83 | after the sweep a file remains exactly when its date is readable and it is less than `timeout` old, with its contents unchanged |
| `FileCache.SweptIdempotent` | FileExtension/Sources/FileCacheController.swift:73-85 | a second sweep at the same instant removes nothing more |
| `FileCache.SweepByAge` | FileExtension/Sources/FileCacheController.swift:79 | a file modified `age` seconds ago survives exactly when `age < timeout` |
| `FileCache.GetRefreshesExpiry` | FileExtension/Sources/FileCacheController.swift:40 | a `get` protects the file from any sweep less than `timeout` seconds later, and its bytes stay readable |
| `FileCache.StoreThenGet` | FileExtension/Sources/FileCacheController.swift:35-57 | `store` then `get` of one name yields the stored bytes |
| `FileCache.FileCacheController.constructor` | FileExtension/Sources/FileCacheController.swift:19-29 | keeps the name and timeout; the cache path is the caches directory, a slash, then the name; the directory holds what was on disk |
| `FileCache.FileCacheController.GetPath` | FileExtension/Sources/FileCacheController.swift:31-33 | the path is the cache path, a slash, then the file name |
| `FileCache.FileCacheController.Get` | FileExtension/Sources/FileCacheController.swift:35-47 | yields the file's bytes when it is present and nil otherwise; the directory becomes `Touched` |
| `FileCache.FileCacheController.Store` | FileExtension/Sources/FileCacheController.swift:49-57 | reports success exactly when the write succeeds; on success the directory becomes `Stored`, otherwise it is unchanged |
| `FileCache.FileCacheController.Delete` | FileExtension/Sources/FileCacheController.swift:59-64 | the named file is gone and every other file is kept; an absent name changes nothing |
| `FileCache.FileCacheController.Move` | FileExtension/Sources/FileCacheController.swift:66-71 | the directory becomes `Moved` before the method returns |
| `FileCache.FileCacheController.ClearTimeout` | FileExtension/Sources/FileCacheController.swift:73-85 | with a timeout that is not positive nothing changes; otherwise the loop over the listing leaves exactly `Swept` |
| `FileCache.FileCacheController.ClearAll` | FileExtension/Sources/FileCacheController.swift:87-94 | the loop over the listing leaves the directory empty |
| `FileNames.HexDigit` | FileExtension/Sources/FileDownloader.swift:43 | each nibble becomes the lower-case hexadecimal digit whose value it is |
| `FileNames.DigitValue` | FileExtension/Sources/FileDownloader.swift:43 | the value of a hexadecimal digit is below 16 |
| `FileNames.Hex2` | FileExtension/Sources/FileDownloader.swift:43 | `%02hhx` writes a byte as two digits, high nibble first, that read back to the byte |
| `FileNames.HexName` | FileExtension/Sources/FileDownloader.swift:43 | the joined name has two hex digits per digest byte |
| `FileNames.ParseHex` | FileExtension/Sources/FileDownloader.swift:43 | reading back digit pairs gives half as many bytes |
| `FileNames.ParseHexName` | FileExtension/Sources/FileDownloader.swift:43 | the hex name reads back to the digest it was made from |
| `FileNames.HexNameInjective` | FileExtension/Sources/FileDownloader.swift:43 | distinct digests give distinct names |
| `FileNames.FileName` | FileExtension/Sources/FileDownloader.swift:38-44 | the file name of a URL is 32 lower-case hexadecimal digits |
| `FileNames.FileNameCollision` | FileExtension/Sources/FileDownloader.swift:38-44 | two URLs share a file name exactly when their MD5 digests are equal |
| `DownloadModel.Completions` | FileExtension/Sources/FileDownloader.swift:95 | one completion per request, in order, each with the same data |
| `DownloadModel.Progresses` | FileExtension/Sources/FileDownloader.swift:114-116 | a progress call goes to every request with a progress closure and to no other, each with the same counts |
| `DownloadProperties.ProgressesAppend` | FileExtension/Sources/FileDownloader.swift:116 | the progress calls for a list are those for its front followed by those for its back |
| `DownloadProperties.ProgressesAt` | FileExtension/Sources/FileDownloader.swift:116 | a request with a progress closure is called right after every call for the requests before it |
| `DownloadProperties.ProgressesInOrder` | FileExtension/Sources/FileDownloader.swift:116 | of two requests with progress closures, the earlier in the list is called first |
| `DownloadModel.FirstIndex` | FileExtension/Sources/FileDownloader.swift:80 | the index of the first request with the identity, or none when no request has it |
| `DownloadModel.Fetches` | FileExtension/Sources/FileDownloader.swift:46 | helper for `SingleFlight`, `FetchesAppend` and `FifoFanOut`: a client's calls to `fetch`, event i being the fetch of request i |
| `DownloadProperties.FetchCoalesces` | FileExtension/Sources/FileDownloader.swift:49-52 | a fetch of a URL with an entry appends the request last and changes nothing else: no probe, no task |
| `DownloadProperties.FetchStartsLookup` | FileExtension/Sources/FileDownloader.swift:54-65 | a first fetch of a URL that is not a file URL makes an entry with no task and queues one cache probe |
| `DownloadProperties.FileUrlBypass` | FileExtension/Sources/FileDownloader.swift:56-63 | a file URL is completed at once with the file's contents, or nil when unreadable, and leaves no entry, probe or task |
| `DownloadProperties.LookupMiss` | FileExtension/Sources/FileDownloader.swift:68-74 | a miss makes one task mapped to the URL; it is attached and resumed exactly when the URL still has an entry |
| `DownloadProperties.CancelKeepsSiblings` | FileExtension/Sources/FileDownloader.swift:78-86 | cancelling a request that is not the last removes only its first occurrence; the others keep their order |
| `DownloadProperties.CancelUnknownIsNoOp` | FileExtension/Sources/FileDownloader.swift:78-86 | cancelling a request that is not waiting changes nothing |
| `DownloadProperties.CancelLastIsSilent` | FileExtension/Sources/FileDownloader.swift:82-83 | cancelling the last request removes the entry and its task mapping, cancels the task if any, and completes nothing |
| `DownloadProperties.CompletionFansOut` | FileExtension/Sources/FileDownloader.swift:88-96 | completion removes the entry and its mapping, then completes every request once, in order, with the same data, after all earlier effects; the task counter and the pending probes do not change |
| `DownloadProperties.FailFansOut` | FileExtension/Sources/FileDownloader.swift:98-110 | a failure that is not a cancel removes the entry and its mapping and completes every request with nil, without cancelling the task; the task counter and the pending probes do not change |
| `DownloadProperties.AbsentEntryIsNoOp` | FileExtension/Sources/FileDownloader.swift:89 | completion and failure of a URL with no entry change nothing |
| `DownloadProperties.UnmappedTaskIgnored` | FileExtension/Sources/FileDownloader.swift:112-144 | progress, finish and error of a task with no mapping change nothing |
| `DownloadProperties.ProgressReachesRequests` | FileExtension/Sources/FileDownloader.swift:112-118 | progress of a mapped task reaches every current request with a progress closure and changes nothing else |
| `DownloadProperties.ProgressInFetchOrder` | FileExtension/Sources/FileDownloader.swift:112-118 | progress of a mapped task reaches the requests in the order they were fetched, after every earlier effect |
| `DownloadProperties.InitialWellFormed` | FileExtension/Sources/FileDownloader.swift:35-36 | a new downloader is well formed |
| `DownloadProperties.CompletionWellFormed` | FileExtension/Sources/FileDownloader.swift:88-96 | completion keeps the tables well formed |
| `DownloadProperties.FailWellFormed` | FileExtension/Sources/FileDownloader.swift:98-110 | failure keeps the tables well formed |
| `DownloadProperties.StepWellFormed` | FileExtension/Sources/FileDownloader.swift:46-144 | every operation and callback keeps the tables well formed |
| `DownloadProperties.RunWellFormed` | FileExtension/Sources/FileDownloader.swift:46-144 | every entry has a request under its own URL, and every entry's task maps back to its URL, in every reachable state |
| `DownloadProperties.OneTaskPerUrl` | FileExtension/Sources/FileDownloader.swift:35-36 | in a coherent state no URL has two mapped tasks |
| `DownloadProperties.FetchCoherent` | FileExtension/Sources/FileDownloader.swift:46-76 | `fetch` keeps every mapped task attached to a live entry |
| `DownloadProperties.CancelCoherent` | FileExtension/Sources/FileDownloader.swift:78-86 | `cancel` outside a pending probe keeps the state coherent |
| `DownloadProperties.LookupCoherent` | FileExtension/Sources/FileDownloader.swift:65-75 | the cache's answer keeps the state coherent |
| `DownloadProperties.StepCoherent` | FileExtension/Sources/FileDownloader.swift:46-144 | every event other than a cancel during its URL's probe keeps the state coherent |
| `DownloadProperties.RunCoherent` | FileExtension/Sources/FileDownloader.swift:46-144 | with no cancel during a probe, every mapped task belongs to a live entry of its URL and each entry has no task exactly while its probe is pending |
| `DownloadProperties.FetchesAppend` | FileExtension/Sources/FileDownloader.swift:49-52 | any number of fetches of a URL with an entry append the requests in order and do nothing else |
| `DownloadProperties.SingleFlight` | FileExtension/Sources/FileDownloader.swift:46-76 | fetches of one new URL make one entry holding every request in order, and queue exactly one probe and no task |
| `DownloadProperties.FifoFanOut` | FileExtension/Sources/FileDownloader.swift:65-67 | on a cache hit the requests are completed in fetch order with the cached bytes, and the tables return to their earlier state |
| `DownloadProperties.CancelSoleAbortsTransfer` | FileExtension/Sources/FileDownloader.swift:78-110 | fetch, miss, then cancel of the sole request: the task is resumed and then cancelled, and no completion fires |
| `DownloadProperties.SharedTransfer` | FileExtension/Sources/FileDownloader.swift:46-76 | two fetches of one URL and a miss share one task, resumed once |
| `DownloadProperties.CancelOneThenFinish` | FileExtension/Sources/FileDownloader.swift:78-132 | after one of two requests is cancelled, the finished transfer completes only the other |
| `DownloadProperties.SiblingSurvivesCancel` | FileExtension/Sources/FileDownloader.swift:46-132 | cancelling one of two requests keeps the transfer running, and only the other request is completed |
| `DownloadProperties.CancelDuringLookupStartsTwoTransfers` | FileExtension/Sources/FileDownloader.swift:65-86 | a cancel during the probe and a second fetch lead to two resumed tasks for one URL, and the state is no longer coherent |
| `Downloader.FanOutCompletions` | FileExtension/Sources/FileDownloader.swift:95 | the loop over the requests makes exactly `Completions` |
| `Downloader.FanOutProgress` | FileExtension/Sources/FileDownloader.swift:116 | the loop over the requests makes exactly `Progresses` |
| `Downloader.FindRequest` | FileExtension/Sources/FileDownloader.swift:80 | the linear search finds exactly `FirstIndex` |
| `Downloader.FileDownloader.constructor` | FileExtension/Sources/FileDownloader.swift:19-22 | a new downloader keeps its cache controller and has empty tables |
| `Downloader.FileDownloader.Fetch` | FileExtension/Sources/FileDownloader.swift:46-76 | the object moves as `AfterFetch` moves the state |
| `Downloader.FileDownloader.Cancel` | FileExtension/Sources/FileDownloader.swift:78-86 | the object moves as `AfterCancel` |
| `Downloader.FileDownloader.FetchCompletion` | FileExtension/Sources/FileDownloader.swift:88-96 | the object moves as `AfterCompletion` |
| `Downloader.FileDownloader.FetchFail` | FileExtension/Sources/FileDownloader.swift:98-110 | the object moves as `AfterFail` |
| `Downloader.FileDownloader.CacheLookupDone` | FileExtension/Sources/FileDownloader.swift:65-75 | the oldest probe reads the URL's cache file, which is dated `now`, and the object moves as `AfterLookup` with what was read |
| `Downloader.FileDownloader.DidWriteData` | FileExtension/Sources/FileDownloader.swift:112-118 | the object moves as `AfterProgress` |
| `Downloader.FileDownloader.DidFinishDownloading` | FileExtension/Sources/FileDownloader.swift:120-132 | an unmapped task changes nothing; otherwise the downloaded file is moved under the URL's name, read back, and the URL completes with what was read |
| `Downloader.FileDownloader.DidCompleteWithError` | FileExtension/Sources/FileDownloader.swift:134-144 | the object moves as `AfterError` |
| `Downloader.CacheHitAcrossRuns` | FileExtension/Sources/FileDownloader.swift:38-132 | a URL downloaded by one downloader is served from the cache, with no task, by a later downloader over the same directory |
| `TempFile.SharedController` | FileExtension/Sources/TemporaryFile.swift:11-15 | the shared controller uses "tw.kamikuo.temp" with timeout 0 and starts empty |
| `TempFile.Yield` | FileExtension/Sources/TemporaryFile.swift:28-34 | `get` yields the bytes in memory when there are some, and the cache's answer otherwise |
| `TempFile.HoldsYields` | FileExtension/Sources/TemporaryFile.swift:28-34 | while the bytes are in memory or stored, `get` yields exactly them |
| `TempFile.HoldsUnderOtherNames` | FileExtension/Sources/TemporaryFile.swift:18-37 | stores, reads and deletes of other temporary files cannot take the bytes away |
| `TempFile.TemporaryNamesDistinct` | FileExtension/Sources/TemporaryFile.swift:18 | distinct UUIDs give distinct "temp-" names |
| `TempFile.TemporaryFile.constructor` | FileExtension/Sources/TemporaryFile.swift:17-26 | holds the bytes in memory, issues their store, and names the file "temp-" and the UUID |
| `TempFile.TemporaryFile.StoreDone` | FileExtension/Sources/TemporaryFile.swift:21-25 | the store runs; the memory copy is released exactly when it succeeded; the bytes stay recoverable |
| `TempFile.TemporaryFile.Get` | FileExtension/Sources/TemporaryFile.swift:28-34 | yields `Yield` of the state, and always the constructed bytes while the file is valid |
| `TempFile.TemporaryFile.Dispose` | FileExtension/Sources/TemporaryFile.swift:36-38 | a store still pending runs first, as the serial queue orders it; then its own file is gone and no other file changes, and no store is left to re-create it |
| `TempFile.TwoTemporaryFiles` | FileExtension/Sources/TemporaryFile.swift:10-39 | two temporary files on the shared controller each yield their own bytes, whatever their stores did, even after the other is disposed of |

## Left out

- The URLSession plumbing: the session and its operation queue, the `URLRequest` with its cache policy and 60-second timeout, and the transfer itself. The transport is only its task identifiers and its delegate callbacks.
- Thread hops are not modelled. The serial I/O queue, `DispatchQueue.main.sync` and `main.async` are collapsed into atomic events. The `main.async` hop in the error callback and the completion hop after `move` are not separate steps. So an interleaving of a client call between the map lookup and `fetchFail` in the error path is not covered.
- Re-entrant callbacks are not modelled. The completion and progress closures run synchronously inside `fetchCompletion`, `fetchFail` and the progress callback (FileExtension/Sources/FileDownloader.swift:95, :108, :116). A closure may call `fetch` or `cancel` before the loop ends. The model logs the whole fan-out first, then any later call. An effect of such a nested call, for example the completion of a file-URL fetch or the `cancel` of a task, therefore comes after all the fan-out's callbacks in `effects`, where the source makes it between two of them. The tables end the same either way, because the source loops over a copy of the request list.
- MD5 (`CC_MD5`) and the UTF-8 C string of the URL are a function value passed in. The model does not compute the digest.
- The `Float` progress ratio is kept as its two byte counts. The division and its rounding are not modelled.
- `Request` objects are compared by an identifier, which stands for Swift's object identity (`===`). The closures are stood for by the `Completed` and `Progressed` effects, and `hasProgress` says whether the optional closure is present.
- `isFileURL` is modelled as the URL string starting with "file:". Scheme case-folding and URL parsing are not modelled. The path of a file URL is not modelled either: what reading it yields is the parameter `local`.
- FileCache.FileCacheController.Get: a present file is always readable, and its date is always set. A failing `setAttributes` or `contents(atPath:)` is not modelled.
- FileCache.FileCacheController.Delete: a failing `removeItem` is not modelled. The file is always gone afterwards.
- FileCache.FileCacheController.ClearTimeout and FileCache.FileCacheController.ClearAll: a failing directory listing or `removeItem` is not modelled. Listing order is left open, because the loop picks names in any order.
- Creating the cache directory in `init` is not modelled. Neither are file names containing '/' or subdirectories: the directory is a flat map.
- Dates are whole seconds (`now: int`) rather than `TimeInterval` doubles. The current time is a parameter.
- `UUID()` is a parameter. Distinct temporary files are assumed to get distinct UUIDs (`TempFile.TwoTemporaryFiles` requires it), as UUID generation promises.
- When `deinit` runs is not modelled. `[weak self]` is not modelled either: a store completing after the object is gone is the same as a store whose result is ignored. `Dispose` runs a still-pending store before the delete, as the serial queue does, and the store's result is then ignored.
- The `lazy` creation of the URL session and the `open` overridability of the classes are not modelled.
