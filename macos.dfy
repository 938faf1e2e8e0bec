/**
 * Installation discovery on macOS: the application bundle's fixed layout
 * under `/Applications/RobloxStudio.app/Contents`, with the user plugins
 * under the documents directory. Nothing is checked for existence.
 */
module MacosPaths {
  import opened Wrappers
  import opened PathModel
  import opened StudioResult
  import opened Paths

  /** `/Applications/RobloxStudio.app/Contents` followed by two more names. */
  function InBundle(dir: string, name: string): Path {
    [RootDir, Normal("Applications"), Normal("RobloxStudio.app"), Normal("Contents"), Normal(dir), Normal(name)]
  }

  /** `RobloxStudioPathsInner::new` on macOS, given `dirs::document_dir`. */
  method New(documentDir: Option<Path>) returns (r: Result<PathsInner>)
    ensures r.Err? <==> documentDir.None?
    ensures r.Err? ==> r.error == UserDocumentsDirMissing
    ensures r.Ok? ==> r.value.exe == InBundle("MacOS", "RobloxStudio")
    ensures r.Ok? ==> r.value.content == InBundle("Resources", "content")
    ensures r.Ok? ==> r.value.pluginsBuiltin == InBundle("Resources", "BuiltInPlugins")
    ensures r.Ok? ==> r.value.pluginsUser == documentDir.value + [Normal("Roblox"), Normal("Plugins")]
  {
    if documentDir.None? {
      return Err(UserDocumentsDirMissing);
    }
    var root: Path := [RootDir, Normal("Applications")];
    root := Join(root, "RobloxStudio.app");
    root := Join(root, "Contents");
    return Ok(PathsInner(
      exe := Join(Join(root, "MacOS"), "RobloxStudio"),
      content := Join(Join(root, "Resources"), "content"),
      pluginsUser := Join(Join(documentDir.value, "Roblox"), "Plugins"),
      pluginsBuiltin := Join(Join(root, "Resources"), "BuiltInPlugins")));
  }
}
