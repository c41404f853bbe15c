/** The disk cache of FileCacheController: one directory of the file system,
    seen as a map from file name to the file's bytes and modification date.
    The injected clock is a parameter `now` (whole seconds), and the outcome of
    a file-system call whose error the controller swallows is a parameter `ioOk`. */
module FileCache {
  import opened Common

  /** A file in the cache directory. `mtime` is None when its modification
      date cannot be read. */
  datatype Entry = Entry(data: Bytes, mtime: Option<int>)

  /** The directory listing: file name to file. */
  type Files = map<string, Entry>

  /** `"\(dir)/\(name)"`: the directory, one slash, the name. */
  function JoinPath(dir: string, name: string): (p: string)
    ensures |p| == |dir| + 1 + |name|
    ensures p[..|dir|] == dir && p[|dir|] == '/' && p[|dir| + 1..] == name
  {
    dir + "/" + name
  }

  /** Within one directory, distinct names give distinct paths, so a map keyed
      by the file name stands for the directory faithfully. */
  lemma JoinPathInjective(dir: string, a: string, b: string)
    requires JoinPath(dir, a) == JoinPath(dir, b)
    ensures a == b
  {
    calc {
      a;
      JoinPath(dir, a)[|dir| + 1..];
      JoinPath(dir, b)[|dir| + 1..];
      b;
    }
  }

  /** What `get` hands to its completion: the bytes of a present file, nil otherwise. */
  function Lookup(files: Files, name: string): (r: Option<Bytes>)
    ensures r.Some? <==> name in files
    ensures r.Some? ==> r.value == files[name].data
  {
    if name in files then Some(files[name].data) else None
  }

  /** The directory after `get`: a present file gets modification date `now`;
      its bytes and every other file stay as they were. */
  function Touched(files: Files, name: string, now: int): (r: Files)
    ensures r.Keys == files.Keys
    ensures forall n :: n in files ==> r[n].data == files[n].data
    ensures forall n :: n in files && n != name ==> r[n] == files[n]
    ensures name in files ==> r[name].mtime == Some(now)
  {
    if name in files then files[name := Entry(files[name].data, Some(now))] else files
  }

  /** The directory after a successful `store`: `createFile` replaces any file of
      that name with the bytes, dated `now`. */
  function Stored(files: Files, name: string, data: Bytes, now: int): (r: Files)
    ensures r.Keys == files.Keys + {name}
    ensures Lookup(r, name) == Some(data) && r[name].mtime == Some(now)
    ensures forall n :: n in files && n != name ==> r[n] == files[n]
  {
    files[name := Entry(data, Some(now))]
  }

  /** The directory after `move`: `moveItem` puts the source file under `name`
      only when the source exists, no file of that name is present and the
      file system does not fail; otherwise the error is swallowed and nothing
      changes. The moved file keeps its own date. */
  function Moved(files: Files, name: string, source: Option<Entry>, ioOk: bool): (r: Files)
    ensures r != files ==> r.Keys == files.Keys + {name}
    ensures r != files <==> ioOk && source.Some? && name !in files
    ensures r != files ==> r[name] == source.value
    ensures forall n :: n in files ==> r[n] == files[n]
  {
    if ioOk && source.Some? && name !in files then files[name := source.value] else files
  }

  /** `clearTimeout` keeps a file only when its date is readable and it was
      modified less than `timeout` seconds before `now`. */
  predicate Fresh(e: Entry, now: int, timeout: int)
  {
    e.mtime.Some? && now - e.mtime.value < timeout
  }

  /** The directory after the sweep of `clearTimeout` (when the timeout is positive). */
  function Swept(files: Files, now: int, timeout: int): (r: Files)
    ensures r.Keys <= files.Keys
    ensures forall n :: n in files ==> (n in r <==> Fresh(files[n], now, timeout))
    ensures forall n :: n in r ==> r[n] == files[n]
  {
    map n | n in files && Fresh(files[n], now, timeout) :: files[n]
  }

  /** A second sweep at the same instant removes nothing more. */
  lemma SweptIdempotent(files: Files, now: int, timeout: int)
    ensures Swept(Swept(files, now, timeout), now, timeout) == Swept(files, now, timeout)
  {
  }

  /** TTL expiry: a file last modified `age` seconds ago survives the sweep
      exactly when `age < timeout`. */
  lemma SweepByAge(files: Files, name: string, now: int, timeout: int, age: int)
    requires name in files && files[name].mtime == Some(now - age)
    ensures name in Swept(files, now, timeout) <==> age < timeout
  {
  }

  /** Access refresh: a `get` at time `t` protects the file from any sweep held
      less than `timeout` seconds after it, whatever its date was before. */
  lemma GetRefreshesExpiry(files: Files, name: string, t: int, now: int, timeout: int)
    requires name in files
    requires now - t < timeout
    ensures name in Swept(Touched(files, name, t), now, timeout)
    ensures Lookup(Swept(Touched(files, name, t), now, timeout), name) == Lookup(files, name)
  {
  }

  /** Round trip: `store` followed by `get` of the same name gives back the
      stored bytes, whatever was there before. */
  lemma StoreThenGet(files: Files, name: string, data: Bytes, t: int, now: int)
    ensures Lookup(Touched(Stored(files, name, data, t), name, now), name) == Some(data)
  {
  }

  class FileCacheController {
    const directoryName: string
    const timeout: int
    const cachePath: string
    /** The files in the directory at `cachePath`. */
    var files: Files

    /** `onDisk` is what the directory holds when the controller is made
        (files left by an earlier run); the caches directory of the user
        domain is a parameter. */
    constructor (cachesDirectory: string, directoryName: string, timeout: int, onDisk: Files)
      ensures this.directoryName == directoryName && this.timeout == timeout
      ensures cachePath == JoinPath(cachesDirectory, directoryName)
      ensures files == onDisk
    {
      this.directoryName := directoryName;
      this.timeout := timeout;
      cachePath := cachesDirectory + "/" + directoryName;
      files := onDisk;
    }

    /** `getPath`: where the file `fileName` lives. */
    function GetPath(fileName: string): (p: string)
      ensures |p| == |cachePath| + 1 + |fileName|
      ensures p[..|cachePath|] == cachePath && p[|cachePath|] == '/' && p[|cachePath| + 1..] == fileName
    {
      JoinPath(cachePath, fileName)
    }

    /** `get`: the bytes of a present file, after dating it `now`; nil (and no
        change) when absent. */
    method Get(fileName: string, now: int) returns (data: Option<Bytes>)
      modifies this
      ensures data == Lookup(old(files), fileName)
      ensures files == Touched(old(files), fileName, now)
    {
      data := None;
      if fileName in files {
        files := files[fileName := Entry(files[fileName].data, Some(now))];
        data := Some(files[fileName].data);
      }
    }

    /** `store`: writes the bytes dated `now`, overwriting any file of that
        name, and reports whether the write succeeded. */
    method Store(data: Bytes, fileName: string, now: int, ioOk: bool) returns (success: bool)
      modifies this
      ensures success == ioOk
      ensures files == if success then Stored(old(files), fileName, data, now) else old(files)
    {
      success := ioOk;
      if success {
        files := files[fileName := Entry(data, Some(now))];
      }
    }

    /** `delete`: removes the file and keeps every other; an absent name is no
        error and so changes nothing. */
    method Delete(fileName: string)
      modifies this
      ensures files == old(files) - {fileName}
    {
      files := files - {fileName};
    }

    /** `move`: places the source file under `fileName` before returning, or
        leaves the directory as it was when the move fails. */
    method Move(source: Option<Entry>, fileName: string, ioOk: bool)
      modifies this
      ensures files == Moved(old(files), fileName, source, ioOk)
    {
      if ioOk && source.Some? && fileName !in files {
        files := files[fileName := source.value];
      }
    }

    /** `clearTimeout`: nothing when the timeout is not positive; otherwise
        walks the directory listing and removes every file that is not fresh. */
    method ClearTimeout(now: int)
      modifies this
      ensures timeout <= 0 ==> files == old(files)
      ensures timeout > 0 ==> files == Swept(old(files), now, timeout)
    {
      if timeout <= 0 {
        return;
      }
      var listing := files.Keys;
      while listing != {}
        invariant listing <= old(files).Keys
        invariant files.Keys <= old(files).Keys
        invariant forall n :: n in files ==> files[n] == old(files)[n]
        invariant forall n :: n in listing ==> n in files
        invariant forall n :: n in old(files) && n !in listing ==>
                    (n in files <==> Fresh(old(files)[n], now, timeout))
        decreases listing
      {
        var fileName :| fileName in listing;
        if !Fresh(files[fileName], now, timeout) {
          files := files - {fileName};
        }
        listing := listing - {fileName};
      }
      assert files.Keys == Swept(old(files), now, timeout).Keys;
    }

    /** `clearAll`: walks the directory listing and removes every file. */
    method ClearAll()
      modifies this
      ensures files == map[]
    {
      var listing := files.Keys;
      while listing != {}
        invariant files.Keys <= listing
        decreases listing
      {
        var fileName :| fileName in listing;
        files := files - {fileName};
        listing := listing - {fileName};
      }
    }
  }
}
