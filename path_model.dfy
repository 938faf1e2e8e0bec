/**
 * Paths as sequences of components, the way Rust's `Path::components`
 * presents them. Joining a relative name is appending a component, and
 * `parent` drops the last component unless it is a root or a drive prefix.
 */
module PathModel {
  import opened Wrappers

  datatype Component =
    | Prefix(drive: string)   // `C:` on Windows
    | RootDir                 // the leading separator
    | CurDir                  // `.`
    | ParentDir               // `..`
    | Normal(name: string)

  type Path = seq<Component>

  /** `Path::parent`: `None` for the empty path and for a path ending in a root or prefix. */
  function Parent(p: Path): (r: Option<Path>)
    ensures r.Some? ==> |r.value| + 1 == |p| && r.value == p[..|p| - 1]
    ensures r.None? <==> p == [] || p[|p| - 1].Prefix? || p[|p| - 1].RootDir?
  {
    if p == [] then None
    else match p[|p| - 1]
      case Prefix(_) => None
      case RootDir => None
      case _ => Some(p[..|p| - 1])
  }

  /** `Path::file_name` for a path whose last component is a name. */
  function FileName(p: Path): (r: Option<string>)
    ensures r.Some? <==> p != [] && p[|p| - 1].Normal?
  {
    if p != [] && p[|p| - 1].Normal? then Some(p[|p| - 1].name) else None
  }

  /** `PathBuf::join` / `PathBuf::push` with a single relative name. */
  function Join(p: Path, name: string): (r: Path)
    ensures Parent(r) == Some(p)
    ensures FileName(r) == Some(name)
  {
    p + [Normal(name)]
  }

  /** Two joins with different names, or onto different bases, never meet. */
  lemma JoinInjective(p: Path, a: string, q: Path, b: string)
    requires Join(p, a) == Join(q, b)
    ensures p == q && a == b
  {
    assert Parent(Join(p, a)) == Some(p);
    assert FileName(Join(p, a)) == Some(a);
  }
}
