/**
 * Installation discovery on Windows: the content folder recorded in the
 * registry, its parent as the installation root, then the "direct" layout
 * (the executable right under the root) and, failing that, the "versioned"
 * layout (`Versions/<version>/`), scanned in directory-iteration order.
 */
module WindowsPaths {
  import opened Wrappers
  import opened PathModel
  import opened StudioResult
  import opened Paths

  const StudioKeyPath := @"Software\Roblox\RobloxStudio"
  const ContentFolderValue := "ContentFolder"
  const ExeName := "RobloxStudioBeta.exe"

  /** The error for a content folder that has no parent directory. */
  const MalformedEntry := IoError(NotFound, "Malformed registry entry: content folder has no parent directory")
  /** The error when neither layout holds the executable. */
  const NotInstalled := IoError(NotFound, "Roblox Studio installation not found")

  // ---------------------------------------------------------------------
  // The host: registry, local data directory and file system as oracles.

  /** An opened registry key; `getValue` reads a string value as a path. */
  datatype RegistryKey = RegistryKey(getValue: string -> IoResult<Path>)

  /** What `DirEntry::file_type` can report. */
  datatype FileType = Directory | RegularFile | Symlink

  /** One item of a `read_dir` iteration: an error, or a named entry whose type may be unreadable. */
  datatype DirEntry =
    | BadEntry(error: IoError)
    | Entry(fileName: string, fileType: IoResult<FileType>)

  /**
   * The file system as the search sees it: the paths that `exists`, the
   * paths that `is_dir`, and the directories `read_dir` can list, each with
   * its entries in iteration order. A directory missing from `listings`
   * cannot be read.
   */
  datatype FileSystem = FileSystem(existing: set<Path>, directories: set<Path>, listings: map<Path, seq<DirEntry>>)

  datatype WindowsHost = WindowsHost(
    openCurrentUserSubkey: string -> IoResult<RegistryKey>,  // `RegKey::predef(HKEY_CURRENT_USER).open_subkey`
    dataLocalDir: Option<Path>,                              // `dirs::data_local_dir`
    fs: FileSystem
  )

  predicate Exists(fs: FileSystem, p: Path) {
    p in fs.existing || p in fs.directories
  }

  predicate IsDir(fs: FileSystem, p: Path) {
    p in fs.directories
  }

  function ReadDir(fs: FileSystem, p: Path): Option<seq<DirEntry>> {
    if p in fs.listings then Some(fs.listings[p]) else None
  }

  // ---------------------------------------------------------------------
  // The two layouts.

  /** `find_paths_direct`: the executable right under the root. */
  function FindPathsDirect(fs: FileSystem, root: Path, content: Path, pluginsUser: Path): (r: Option<PathsInner>)
    ensures r.Some? <==> Exists(fs, Join(root, ExeName))
    ensures r.Some? ==> r.value.exe == Join(root, ExeName) && Exists(fs, r.value.exe)
    ensures r.Some? ==> r.value.content == content && r.value.pluginsUser == pluginsUser
    ensures r.Some? ==> r.value.pluginsBuiltin == Join(root, "BuiltInPlugins")
  {
    var exe := Join(root, ExeName);
    if Exists(fs, exe) then
      Some(PathsInner(exe := exe, content := content, pluginsUser := pluginsUser,
                      pluginsBuiltin := Join(root, "BuiltInPlugins")))
    else None
  }

  /** The record for an installation found in the version directory `dir`. */
  function VersionedInstall(dir: Path, pluginsUser: Path): (p: PathsInner)
    ensures Parent(p.exe) == Some(dir) && Parent(p.content) == Some(dir) && Parent(p.pluginsBuiltin) == Some(dir)
    ensures FileName(p.exe) == Some(ExeName) && FileName(p.content) == Some("content")
    ensures FileName(p.pluginsBuiltin) == Some("BuiltInPlugins")
    ensures p.pluginsUser == pluginsUser
  {
    PathsInner(exe := Join(dir, ExeName), content := Join(dir, "content"),
               pluginsUser := pluginsUser, pluginsBuiltin := Join(dir, "BuiltInPlugins"))
  }

  /** An entry of `versions` that is a readable directory holding the executable. */
  predicate IsMatch(fs: FileSystem, versions: Path, e: DirEntry) {
    e.Entry? && e.fileType == IoOk(Directory) && Exists(fs, Join(Join(versions, e.fileName), ExeName))
  }

  /**
   * The scan of `find_paths_versioned` over the listed entries: a bad entry
   * ends it with nothing, an unreadable type or a non-directory is passed
   * over, and the first directory holding the executable is the answer.
   */
  function ScanEntries(fs: FileSystem, versions: Path, entries: seq<DirEntry>, pluginsUser: Path): (r: Option<PathsInner>)
    ensures r.Some? ==> Exists(fs, r.value.exe) && r.value.pluginsUser == pluginsUser
    ensures r.Some? ==> exists name :: Parent(r.value.exe) == Some(Join(versions, name))
    decreases |entries|
  {
    if entries == [] then None
    else match entries[0]
      case BadEntry(_) => None
      case Entry(name, _) =>
        if IsMatch(fs, versions, entries[0]) then Some(VersionedInstall(Join(versions, name), pluginsUser))
        else ScanEntries(fs, versions, entries[1..], pluginsUser)
  }

  /** The whole versioned search: `Versions` must be a directory that can be listed. */
  function VersionedSearch(fs: FileSystem, root: Path, pluginsUser: Path): (r: Option<PathsInner>)
    ensures r.Some? ==> IsDir(fs, Join(root, "Versions")) && ReadDir(fs, Join(root, "Versions")).Some?
    ensures r.Some? ==> Exists(fs, r.value.exe) && r.value.pluginsUser == pluginsUser
    ensures r.Some? ==> exists name :: Parent(r.value.exe) == Some(Join(Join(root, "Versions"), name))
  {
    var versions := Join(root, "Versions");
    if !IsDir(fs, versions) then None
    else match ReadDir(fs, versions)
      case None => None
      case Some(entries) => ScanEntries(fs, versions, entries, pluginsUser)
  }

  /** `find_paths_versioned`: the `for` loop over the directory entries. */
  method FindPathsVersioned(fs: FileSystem, root: Path, pluginsUser: Path) returns (r: Option<PathsInner>)
    ensures r == VersionedSearch(fs, root, pluginsUser)
  {
    var versions := Join(root, "Versions");
    if !IsDir(fs, versions) {
      return None;
    }
    var listing := ReadDir(fs, versions);
    if listing.None? {
      return None;
    }
    var entries := listing.value;
    var i := 0;
    while i < |entries|
      invariant 0 <= i <= |entries|
      invariant ScanEntries(fs, versions, entries[i..], pluginsUser) == ScanEntries(fs, versions, entries, pluginsUser)
    {
      var entry := entries[i];
      assert entries[i..][0] == entry && entries[i..][1..] == entries[i + 1..];
      if entry.BadEntry? {
        return None;
      }
      if entry.fileType.IoErr? {
        i := i + 1;
        continue;
      }
      if entry.fileType.value == Directory {
        var dir := Join(versions, entry.fileName);
        var exe := Join(dir, ExeName);
        if Exists(fs, exe) {
          return Some(PathsInner(exe := exe, content := Join(dir, "content"),
                                 pluginsUser := pluginsUser, pluginsBuiltin := Join(dir, "BuiltInPlugins")));
        }
      }
      i := i + 1;
    }
    return None;
  }

  // ---------------------------------------------------------------------
  // The platform strategy.

  /** The user plugins directory: `<local data>/Roblox/Plugins`. */
  function UserPluginsDir(localDataDir: Path): (p: Path)
    ensures Parent(p) == Some(Join(localDataDir, "Roblox")) && FileName(p) == Some("Plugins")
  {
    Join(Join(localDataDir, "Roblox"), "Plugins")
  }

  /**
   * `RobloxStudioPathsInner::new` on Windows. The steps fail in this order:
   * opening the registry key, reading `ContentFolder`, taking its parent,
   * finding the local data directory; only then is the installation
   * searched, the direct layout before the versioned one.
   */
  method New(host: WindowsHost) returns (r: Result<PathsInner>)
    ensures host.openCurrentUserSubkey(StudioKeyPath).IoErr? ==>
      r == Err(Io(host.openCurrentUserSubkey(StudioKeyPath).error))
    ensures host.openCurrentUserSubkey(StudioKeyPath).IoOk? ==>
      var value := host.openCurrentUserSubkey(StudioKeyPath).value.getValue(ContentFolderValue);
      && (value.IoErr? ==> r == Err(Io(value.error)))
      && (value.IoOk? && Parent(value.value).None? ==> r == Err(Io(MalformedEntry)))
      && (value.IoOk? && Parent(value.value).Some? && host.dataLocalDir.None? ==> r == Err(LocalDataDirMissing))
      && (value.IoOk? && Parent(value.value).Some? && host.dataLocalDir.Some? ==>
            var root, plugins := Parent(value.value).value, UserPluginsDir(host.dataLocalDir.value);
            r == match FindPathsDirect(host.fs, root, value.value, plugins)
                 case Some(p) => Ok(p)
                 case None =>
                   match VersionedSearch(host.fs, root, plugins)
                   case Some(p) => Ok(p)
                   case None => Err(Io(NotInstalled)))
    ensures r.Ok? ==> host.dataLocalDir.Some? && r.value.pluginsUser == UserPluginsDir(host.dataLocalDir.value)
    ensures r.Ok? ==> Exists(host.fs, r.value.exe)
  {
    var key := host.openCurrentUserSubkey(StudioKeyPath);
    if key.IoErr? {
      return Err(Io(key.error));
    }
    var value := key.value.getValue(ContentFolderValue);
    if value.IoErr? {
      return Err(Io(value.error));
    }
    var content := value.value;
    var parent := Parent(content);
    if parent.None? {
      return Err(Io(MalformedEntry));
    }
    var root := parent.value;
    if host.dataLocalDir.None? {
      return Err(LocalDataDirMissing);
    }
    var pluginsUser := Join(Join(host.dataLocalDir.value, "Roblox"), "Plugins");
    var direct := FindPathsDirect(host.fs, root, content, pluginsUser);
    if direct.Some? {
      return Ok(direct.value);
    }
    var versioned := FindPathsVersioned(host.fs, root, pluginsUser);
    if versioned.Some? {
      return Ok(versioned.value);
    }
    return Err(Io(NotInstalled));
  }

  // ---------------------------------------------------------------------
  // What the versioned scan finds.

  /** Every entry before `k` is a readable entry that does not match. */
  predicate PassedOver(fs: FileSystem, versions: Path, entries: seq<DirEntry>, k: int) {
    forall j :: 0 <= j < k && j < |entries| ==> entries[j].Entry? && !IsMatch(fs, versions, entries[j])
  }

  /** Entry `k` is where the scan stops with a match. */
  predicate FirstMatch(fs: FileSystem, versions: Path, entries: seq<DirEntry>, k: int) {
    0 <= k < |entries| && IsMatch(fs, versions, entries[k]) && PassedOver(fs, versions, entries, k)
  }

  /** The first match, with only readable non-matching entries before it, is the answer. */
  lemma {:induction false} ScanReturnsFirstMatch(
    fs: FileSystem, versions: Path, entries: seq<DirEntry>, pluginsUser: Path, k: nat)
    requires FirstMatch(fs, versions, entries, k)
    ensures ScanEntries(fs, versions, entries, pluginsUser)
         == Some(VersionedInstall(Join(versions, entries[k].fileName), pluginsUser))
    decreases k
  {
    if k == 0 {
      assert ScanEntries(fs, versions, entries, pluginsUser)
          == Some(VersionedInstall(Join(versions, entries[0].fileName), pluginsUser));
    } else {
      assert entries[0].Entry? && !IsMatch(fs, versions, entries[0]);
      var rest := entries[1..];
      assert ScanEntries(fs, versions, entries, pluginsUser) == ScanEntries(fs, versions, rest, pluginsUser);
      assert rest[k - 1] == entries[k];
      FirstMatchShift(fs, versions, entries, k - 1);
      ScanReturnsFirstMatch(fs, versions, rest, pluginsUser, k - 1);
    }
  }

  /** Past a readable non-matching first entry, the first match moves up by one. */
  lemma FirstMatchShift(fs: FileSystem, versions: Path, entries: seq<DirEntry>, k: int)
    requires |entries| > 0 && entries[0].Entry? && !IsMatch(fs, versions, entries[0])
    ensures FirstMatch(fs, versions, entries[1..], k) <==> FirstMatch(fs, versions, entries, k + 1)
  {
    var rest := entries[1..];
    if FirstMatch(fs, versions, rest, k) {
      forall j | 0 <= j < k + 1 ensures entries[j].Entry? && !IsMatch(fs, versions, entries[j]) {
        if j > 0 { assert entries[j] == rest[j - 1]; }
      }
    }
    if FirstMatch(fs, versions, entries, k + 1) {
      forall j | 0 <= j < k ensures rest[j].Entry? && !IsMatch(fs, versions, rest[j]) {
        assert rest[j] == entries[j + 1];
      }
    }
  }

  /** The scan finds something only at a first match. */
  lemma {:induction false} ScanFoundIsFirstMatch(fs: FileSystem, versions: Path, entries: seq<DirEntry>, pluginsUser: Path)
    requires ScanEntries(fs, versions, entries, pluginsUser).Some?
    ensures exists k :: FirstMatch(fs, versions, entries, k)
    decreases |entries|
  {
    if IsMatch(fs, versions, entries[0]) {
      assert FirstMatch(fs, versions, entries, 0);
    } else {
      var rest := entries[1..];
      ScanFoundIsFirstMatch(fs, versions, rest, pluginsUser);
      var k :| FirstMatch(fs, versions, rest, k);
      FirstMatchShift(fs, versions, entries, k);
    }
  }

  /** The scan comes back empty exactly when no entry is a first match. */
  lemma ScanEmptyIffNoFirstMatch(fs: FileSystem, versions: Path, entries: seq<DirEntry>, pluginsUser: Path)
    ensures ScanEntries(fs, versions, entries, pluginsUser).None?
        <==> forall k :: 0 <= k < |entries| ==> !FirstMatch(fs, versions, entries, k)
  {
    if ScanEntries(fs, versions, entries, pluginsUser).Some? {
      ScanFoundIsFirstMatch(fs, versions, entries, pluginsUser);
    } else {
      forall k | 0 <= k < |entries| ensures !FirstMatch(fs, versions, entries, k) {
        if FirstMatch(fs, versions, entries, k) {
          ScanReturnsFirstMatch(fs, versions, entries, pluginsUser, k);
        }
      }
    }
  }

  /**
   * The versioned search finds something exactly when `Versions` is a
   * listable directory whose listing has a first match.
   */
  lemma VersionedSearchFindsIff(fs: FileSystem, root: Path, pluginsUser: Path)
    ensures var versions := Join(root, "Versions");
      VersionedSearch(fs, root, pluginsUser).Some? <==>
        (IsDir(fs, versions) && ReadDir(fs, versions).Some? &&
         exists k :: FirstMatch(fs, versions, ReadDir(fs, versions).value, k))
  {
    var versions := Join(root, "Versions");
    if IsDir(fs, versions) && ReadDir(fs, versions).Some? {
      var entries := ReadDir(fs, versions).value;
      assert VersionedSearch(fs, root, pluginsUser) == ScanEntries(fs, versions, entries, pluginsUser);
      ScanEmptyIffNoFirstMatch(fs, versions, entries, pluginsUser);
    }
  }

  /** The versioned search returns the installation at the listing's first match. */
  lemma VersionedSearchReturnsFirstMatch(fs: FileSystem, root: Path, pluginsUser: Path, k: int)
    requires IsDir(fs, Join(root, "Versions")) && ReadDir(fs, Join(root, "Versions")).Some?
    requires FirstMatch(fs, Join(root, "Versions"), ReadDir(fs, Join(root, "Versions")).value, k)
    ensures var versions := Join(root, "Versions");
      VersionedSearch(fs, root, pluginsUser)
        == Some(VersionedInstall(Join(versions, ReadDir(fs, versions).value[k].fileName), pluginsUser))
  {
    var versions := Join(root, "Versions");
    var entries := ReadDir(fs, versions).value;
    assert VersionedSearch(fs, root, pluginsUser) == ScanEntries(fs, versions, entries, pluginsUser);
    ScanReturnsFirstMatch(fs, versions, entries, pluginsUser, k);
  }

  /**
   * A bad entry aborts the whole scan: if nothing before it matched, the
   * result is `None` whatever follows, even a matching directory.
   */
  lemma {:induction false} BadEntryAbortsScan(
    fs: FileSystem, versions: Path, before: seq<DirEntry>, e: IoError, after: seq<DirEntry>, pluginsUser: Path)
    requires PassedOver(fs, versions, before, |before|)
    ensures ScanEntries(fs, versions, before + [BadEntry(e)] + after, pluginsUser) == None
    decreases |before|
  {
    var all := before + [BadEntry(e)] + after;
    if before != [] {
      assert all[0] == before[0];
      assert all[1..] == before[1..] + [BadEntry(e)] + after;
      assert PassedOver(fs, versions, before[1..], |before| - 1) by {
        forall j | 0 <= j < |before| - 1 ensures before[1..][j].Entry? && !IsMatch(fs, versions, before[1..][j]) {
          assert before[1..][j] == before[j + 1];
        }
      }
      BadEntryAbortsScan(fs, versions, before[1..], e, after, pluginsUser);
    }
  }

  /** An entry whose type cannot be read, or that is not a directory, is passed over. */
  lemma SkippedEntry(fs: FileSystem, versions: Path, name: string, fileType: IoResult<FileType>,
                     rest: seq<DirEntry>, pluginsUser: Path)
    requires fileType.IoErr? || fileType.value != Directory
    ensures ScanEntries(fs, versions, [Entry(name, fileType)] + rest, pluginsUser)
         == ScanEntries(fs, versions, rest, pluginsUser)
  {
    assert ([Entry(name, fileType)] + rest)[1..] == rest;
  }
}
