/**
 * The operating-system services the builder calls while it is configured,
 * replaced by oracles: each field answers one kind of OS call.
 */
module Os {
  import opened Wrappers
  import opened PathModel
  import opened StudioResult

  /** The host as the builder sees it. */
  datatype Host = Host(
    canonicalize: Path -> IoResult<Path>,  // `Path::canonicalize`
    toStr: Path -> Option<string>,         // `Path::to_str`: `None` when the path is not valid UTF-8
    dataLocalDir: Option<Path>,            // `dirs::data_local_dir`
    copy: (Path, Path) -> IoResult<nat>    // `fs::copy(from, to)`: the number of bytes copied
  )

  /** A process to start: the program and its arguments, in order. */
  datatype Command = Command(program: Path, args: seq<string>)
}
