/**
 * The parts of Rust's `std::io` and `std::fs` the server depends on: an I/O
 * error with its kind and display text, and the filesystem that `fs::read`
 * consults, as a plain map from path to what reading that path yields.
 */
module Io {
  import opened Wrappers
  import opened Utf8

  /** The `std::io::ErrorKind` values the server inspects or produces, and a few others a read or write may report. */
  datatype ErrorKind =
    | NotFound
    | PermissionDenied
    | InvalidData
    | BrokenPipe
    | ConnectionReset
    | TimedOut
    | Other

  /** An `std::io::Error`: its kind and the text its `to_string()` yields. */
  datatype IoError = IoError(kind: ErrorKind, message: string)

  /** What reading one existing path yields: its bytes, or an error such as a permission failure. */
  datatype Entry = Contents(bytes: seq<byte>) | Unreadable(error: IoError)

  /** The filesystem as seen by `fs::read`: a path absent from the map does not exist. */
  type FileSystem = map<string, Entry>

  /** The error the OS reports for a path that does not exist. */
  const Missing: IoError := IoError(NotFound, "No such file or directory (os error 2)")

  /** `fs::read(path)`: the whole file, or the error reading it reports. */
  function Read(fs: FileSystem, path: string): (r: Result<seq<byte>, IoError>)
    ensures r.Ok? <==> path in fs && fs[path].Contents?
    ensures r.Ok? ==> r.value == fs[path].bytes
    ensures path !in fs ==> r == Err(Missing)
    ensures path in fs && fs[path].Unreadable? ==> r == Err(fs[path].error)
  {
    if path !in fs then Err(Missing)
    else match fs[path]
      case Contents(b) => Ok(b)
      case Unreadable(e) => Err(e)
  }
}
