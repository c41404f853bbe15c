/** TemporaryFile: bytes handed over once, kept in memory until the shared
    temporary cache reports that it has stored them, and read back from there
    afterwards. The shared controller is made explicitly and passed in; the
    store that `init` issues runs later, as its own event. */
module TempFile {
  import opened Common
  import opened FileCache

  const TemporaryDirectory := "tw.kamikuo.temp"

  /** The shared controller: directory "tw.kamikuo.temp", timeout 0, and
      emptied of whatever an earlier run left in it. */
  method SharedController(cachesDirectory: string, onDisk: Files) returns (c: FileCacheController)
    ensures fresh(c)
    ensures c.directoryName == TemporaryDirectory && c.timeout == 0
    ensures c.cachePath == JoinPath(cachesDirectory, TemporaryDirectory)
    ensures c.files == map[]
  {
    c := new FileCacheController(cachesDirectory, TemporaryDirectory, 0, onDisk);
    c.ClearAll();
  }

  /** What `get` hands to its completion: the bytes held in memory, or else the
      cache's answer for the file name. */
  function Yield(data: Option<Bytes>, files: Files, fileName: string): (r: Option<Bytes>)
    ensures data.Some? ==> r == data
    ensures data.None? ==> r == Lookup(files, fileName)
  {
    if data.Some? then data else Lookup(files, fileName)
  }

  /** The bytes are recoverable: held in memory, or in the cache under the name. */
  ghost predicate Holds(data: Option<Bytes>, bytes: Bytes, files: Files, fileName: string)
  {
    data == Some(bytes) || (data.None? && fileName in files && files[fileName].data == bytes)
  }

  /** While the bytes are recoverable, `get` yields exactly them. */
  lemma HoldsYields(data: Option<Bytes>, bytes: Bytes, files: Files, fileName: string)
    requires Holds(data, bytes, files, fileName)
    ensures Yield(data, files, fileName) == Some(bytes)
  {
  }

  /** What other temporary files do to the directory (store, read, delete
      under their own names) cannot take the bytes away. */
  lemma HoldsUnderOtherNames(data: Option<Bytes>, bytes: Bytes, files: Files, fileName: string,
                             other: string, otherBytes: Bytes, now: int)
    requires Holds(data, bytes, files, fileName) && other != fileName
    ensures Holds(data, bytes, Stored(files, other, otherBytes, now), fileName)
    ensures Holds(data, bytes, Touched(files, other, now), fileName)
    ensures Holds(data, bytes, files - {other}, fileName)
  {
  }

  /** Temporary names are "temp-" and a UUID, so distinct UUIDs give distinct names. */
  lemma TemporaryNamesDistinct(u1: string, u2: string)
    requires u1 != u2
    ensures "temp-" + u1 != "temp-" + u2
  {
    assert ("temp-" + u1)[5..] == u1 && ("temp-" + u2)[5..] == u2;
  }

  class TemporaryFile {
    const controller: FileCacheController
    const fileName: string
    /** The bytes given to `init`. */
    ghost const bytes: Bytes
    /** The in-memory copy, released once the store has succeeded. */
    var data: Option<Bytes>
    /** The bytes of the store `init` issued, while it has not yet run. */
    var pendingStore: Option<Bytes>

    ghost predicate Valid()
      reads this, controller
    {
      && Holds(data, bytes, controller.files, fileName)
      && (pendingStore.Some? ==> pendingStore == Some(bytes) && data == Some(bytes))
    }

    /** `init(data:)`: holds the bytes and issues their store under
        "temp-" followed by the UUID. */
    constructor (data: Bytes, uuid: string, controller: FileCacheController)
      ensures this.controller == controller && fileName == "temp-" + uuid && bytes == data
      ensures this.data == Some(data) && pendingStore == Some(data)
      ensures Valid()
    {
      this.controller := controller;
      fileName := "temp-" + uuid;
      bytes := data;
      this.data := Some(data);
      pendingStore := Some(data);
    }

    /** The issued store runs at `now` and reports back: the in-memory copy is
        released only when it succeeded. */
    method StoreDone(now: int, ioOk: bool)
      requires Valid() && pendingStore.Some?
      modifies this, controller
      ensures Valid() && pendingStore.None?
      ensures data == if ioOk then None else Some(bytes)
      ensures controller.files == if ioOk then Stored(old(controller.files), fileName, bytes, now)
                                  else old(controller.files)
    {
      var success := controller.Store(pendingStore.value, fileName, now, ioOk);
      pendingStore := None;
      if success {
        data := None;
      }
    }

    /** `get`: the held bytes, or the cache's file (dated `now` by the read). */
    method Get(now: int) returns (r: Option<Bytes>)
      modifies controller
      ensures r == Yield(old(data), old(controller.files), fileName)
      ensures controller.files == if data.Some? then old(controller.files)
                                  else Touched(old(controller.files), fileName, now)
      ensures old(Valid()) ==> Valid() && r == Some(bytes)
    {
      if data.Some? {
        r := data;
      } else {
        r := controller.Get(fileName, now);
      }
    }

    /** `deinit`: deletes the file and nothing else. The store that `init`
        issued is ahead of the delete on the cache's serial queue, so a store
        still pending runs first (at `now`, succeeding as `ioOk` says); its
        completion finds the object gone and changes nothing. */
    method Dispose(now: int, ioOk: bool)
      modifies this, controller
      ensures pendingStore.None? && data == old(data)
      ensures controller.files == old(controller.files) - {fileName}
    {
      if pendingStore.Some? {
        var _ := controller.Store(pendingStore.value, fileName, now, ioOk);
        pendingStore := None;
      }
      controller.Delete(fileName);
    }
  }

  /** Two temporary files on the shared controller: whatever order their
      stores complete in, each one's `get` yields its own bytes, and disposing
      of one leaves the other readable. */
  method TwoTemporaryFiles(cachesDirectory: string, onDisk: Files, a: Bytes, b: Bytes,
                           u1: string, u2: string, now: int, ok1: bool, ok2: bool)
    returns (r1: Option<Bytes>, r2: Option<Bytes>)
    requires u1 != u2
    ensures r1 == Some(a) && r2 == Some(b)
  {
    var c := SharedController(cachesDirectory, onDisk);
    var t1 := new TemporaryFile(a, u1, c);
    var t2 := new TemporaryFile(b, u2, c);
    TemporaryNamesDistinct(u1, u2);
    assert t2.Valid();
    t2.StoreDone(now, ok2);
    assert t1.Valid() by {
      HoldsUnderOtherNames(Some(a), a, map[], t1.fileName, t2.fileName, b, now);
    }
    ghost var before := c.files;
    t1.StoreDone(now, ok1);
    assert t2.Valid() by {
      HoldsUnderOtherNames(t2.data, b, before, t2.fileName, t1.fileName, a, now);
    }
    r1 := t1.Get(now + 1);
    t1.Dispose(now + 1, true);
    r2 := t2.Get(now + 2);
  }
}
