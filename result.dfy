/**
 * The error taxonomy of the crate (`RobloxStudioError`) and the result
 * types built on it. `std::io::Error` is modelled by its kind and the text
 * its `Display` implementation prints; `opener::OpenError` only by its text.
 */
module StudioResult {
  import opened PathModel

  datatype IoErrorKind = NotFound | PermissionDenied | InvalidData | OtherKind

  /** A `std::io::Error`: its kind and what `to_string` gives for it. */
  datatype IoError = IoError(kind: IoErrorKind, text: string)

  /** The outcome of an OS call that either yields a value or an `io::Error`. */
  datatype IoResult<+T> = IoOk(value: T) | IoErr(error: IoError)

  datatype Error =
    | UnknownTask(task: string)
    | UserDocumentsDirMissing
    | LocalDataDirMissing
    | LocalDataDirCopyPlace(detail: string)
    | PathCanonicalize(detail: string)
    | PathToString(path: Path)
    | Opener(detail: string)
    | Io(io: IoError)

  /** `RobloxStudioResult<T>`. */
  datatype Result<+T> = Ok(value: T) | Err(error: Error)

  /** `RobloxStudioResult<()>`. */
  datatype Outcome = Pass | Fail(error: Error)
}
