/** The controller's view of the filesystem: which directories exist, and
    the writes that have reached sysfs so far. Whether a write succeeds is
    not decided here; every write takes a success oracle `ok`. */
module FileSystem {
  import opened Base
  import Sysfs

  /** One complete open/write/close of `payload` into the file at `path`. */
  datatype LogEntry = LogEntry(path: string, payload: string)

  datatype Fs = Fs(dirs: set<string>, log: seq<LogEntry>)

  predicate Exists(fs: Fs, path: string) {
    path in fs.dirs
  }

  /** Writes the whole of `payload` to `path`. On success the write is
      appended to the log and the kernel reacts to it; on failure nothing
      changes. */
  function WriteFile(fs: Fs, path: string, payload: string, ok: bool): (r: Option<Fs>)
    ensures r.Some? <==> ok
    ensures r.Some? ==> r.value.log == fs.log + [LogEntry(path, payload)]
  {
    if ok then Some(Fs(Sysfs.KernelReact(fs.dirs, path, payload), fs.log + [LogEntry(path, payload)]))
    else None
  }
}
