/**
 * The record of a discovered installation (`RobloxStudioPathsInner`), the
 * handle callers hold onto it (`RobloxStudioPaths`) and its accessors.
 * Which platform strategy produced the record is decided outside this
 * module; `New` takes that strategy's outcome.
 */
module Paths {
  import opened PathModel
  import opened StudioResult

  /** The four paths of an installation. */
  datatype PathsInner = PathsInner(exe: Path, content: Path, pluginsUser: Path, pluginsBuiltin: Path)

  /** The shared, immutable handle onto a discovered record. */
  datatype StudioPaths = StudioPaths(inner: PathsInner) {

    /** The Roblox Studio executable. */
    function Exe(): Path {
      inner.exe
    }

    /** The bundled content directory. */
    function Content(): Path {
      inner.content
    }

    /** The user plugins directory, which need not exist yet. */
    function UserPlugins(): Path {
      inner.pluginsUser
    }

    /** The built-in plugins directory shipped with Studio. */
    function BuiltInPlugins(): Path {
      inner.pluginsBuiltin
    }

    /** A clone shares the record, so it observes the same four paths. */
    function Clone(): (c: StudioPaths)
      ensures c.Exe() == Exe() && c.Content() == Content()
      ensures c.UserPlugins() == UserPlugins() && c.BuiltInPlugins() == BuiltInPlugins()
    {
      this
    }
  }

  /** `From<RobloxStudioPathsInner>`: every accessor reads its own field back. */
  function FromInner(inner: PathsInner): (p: StudioPaths)
    ensures p.Exe() == inner.exe && p.Content() == inner.content
    ensures p.UserPlugins() == inner.pluginsUser && p.BuiltInPlugins() == inner.pluginsBuiltin
  {
    StudioPaths(inner)
  }

  /**
   * `RobloxStudioPaths::new`, given the outcome of the platform's discovery:
   * its error passes through unchanged, its record is wrapped as it is.
   */
  function New(discovered: Result<PathsInner>): (r: Result<StudioPaths>)
    ensures r.Err? <==> discovered.Err?
    ensures r.Err? ==> r.error == discovered.error
    ensures r.Ok? ==> r.value.inner == discovered.value
  {
    match discovered
    case Ok(inner) => Ok(FromInner(inner))
    case Err(e) => Err(e)
  }
}
