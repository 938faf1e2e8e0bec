# roblox-studio-utils, modelled in Dafny

A model of the core of `roblox-studio-utils`, a Rust crate that finds an
installed Roblox Studio and launches it with the command-line arguments of one
of four tasks: editing an online place, editing a local place file, starting a
local test server (optionally with clients) and starting a client that joins a
running server. The model covers three pieces:

- **the task vocabulary** (`StudioTask`, from `lib/task.rs`): the forgiving
  parser (trim, ASCII lower-case, three spellings per task) and the PascalCase
  names Roblox Studio expects after `-task`;
- **the argument builder** (`Opener.RobloxStudioOpener`, from `lib/opener.rs`):
  a class whose `args` field is the flat list of alternating keys and values,
  with the server address and port beside it; every method states exactly
  which suffix it appends, in which order the fallible steps fail, and that a
  failed call changes nothing;
- **installation discovery** (`Paths`, `WindowsPaths`, `MacosPaths`, from
  `lib/paths/`): the four-path record and its accessors, the Windows search
  (registry, parent directory, local data directory, direct layout, then a scan
  of `Versions` in iteration order) over an abstract registry and file system,
  and the fixed macOS bundle layout.

Supporting modules: `Wrappers` (Option), `PathModel` (paths as sequences of
components, so that `join` appends and `parent` drops the last component the
way Rust's `Path::parent` does), `StudioResult` (the error enum of
`lib/result.rs`, with `io::Error` as a kind plus its display text), `Formatting`
(decimal spelling of unsigned integers and dotted-quad IPv4 addresses, with the
decimal round trip proved) and `Os` (the OS calls of the builder as oracles).

OS calls are parameters: `Os.Host` answers `canonicalize`, `to_str`,
`dirs::data_local_dir` and `fs::copy`; `WindowsPaths.WindowsHost` answers the
registry, `dirs::data_local_dir`, `exists`, `is_dir` and `read_dir`; the macOS
strategy takes `dirs::document_dir` as an `Option`. `RobloxStudioPaths::new`
takes the platform strategy's outcome, since the platform is chosen at compile
time by `cfg(target_os)`.

Rust's consuming builder (`fn f(self) -> Self`) becomes a mutating method; a
chain of calls is a sequence of method calls on one object. Where the Rust
method returns an error and drops the consumed builder, the model's method
returns the error and leaves the object's state exactly as it was, which is
what a caller holding a clone observes.

The builder's invariant `Valid` says the arguments always have even length,
since `with_arg` pushes a key and its value together. Under it every method
states its effect twice: as the exact suffix of `args`, and as the pairs
appended to `Pairs(args)`, the arguments read back as (key, value) pairs.

## Model

| member | source | states |
|---|---|---|
| `Formatting.Decimal` | lib/opener.rs:105-109 | `u64::to_string`: never empty, digits only, no leading zero except for zero itself |
| `Formatting.DecimalRoundTrip` | lib/opener.rs:105-109 | reading the decimal text of a number back yields that number |
| `Formatting.DecimalInjective` | lib/opener.rs:105-109 | different numbers get different decimal texts |
| `Formatting.LocalhostText` | lib/opener.rs:13 | the default server address prints as `127.0.0.1` |
| `Formatting.DottedQuad` | lib/opener.rs:164 | `Ipv4Addr`'s display: at least seven characters (four octets and three dots) |
| `Formatting.DottedQuadInjective` | lib/opener.rs:164 | different addresses are displayed differently, so the `-server` text determines the address |
| `PathModel.Parent` | lib/paths/windows.rs:24-29 | `Path::parent` is `None` exactly for the empty path and a path ending in a root or drive prefix; otherwise it drops the last component |
| `PathModel.Join` | lib/paths/windows.rs:52 | joining a name yields a path whose parent is the base and whose file name is the name |
| `PathModel.JoinInjective` | lib/paths/windows.rs:52 | joins that differ in base or name give different paths |
| `StudioTask.AsciiLowercase` | lib/task.rs:25 | same length, every ASCII capital becomes its own small letter (32 code points up), every other character unchanged, so no capital is left |
| `StudioTask.TrimStart` | lib/task.rs:25 | the result is a suffix of the input, everything cut off is whitespace, and it does not start with whitespace |
| `StudioTask.TrimEnd` | lib/task.rs:25 | the result is a prefix of the input, everything cut off is whitespace, and it does not end with whitespace |
| `StudioTask.Trim` | lib/task.rs:25 | the trimmed text is a contiguous slice of the input with only whitespace cut off before and after it, and it neither starts nor ends with whitespace |
| `StudioTask.Parse` | lib/task.rs:24-32 | a parsed task is one whose spellings include the trimmed, lower-cased input; `None` means the trimmed, lower-cased input spells no task |
| `StudioTask.MatchKey` | lib/task.rs:26-31 | the `match` arms: a matched key is a spelling of the task it yields, and an unmatched key is a spelling of none of the four tasks |
| `StudioTask.ParseAcceptsExactlySpellings` | lib/task.rs:24-32 | `parse(s)` is `Some(t)` exactly when the trimmed, lower-cased `s` is one of t's compact, `-` or `_` spellings |
| `StudioTask.ParseRejectsOthers` | lib/task.rs:25-31 | `parse(s)` is `None` exactly when the trimmed, lower-cased `s` is no task's spelling |
| `StudioTask.SpellingsDisjoint` | lib/task.rs:26-29 | no text is a spelling of two different tasks |
| `StudioTask.ParseIgnoresCase` | lib/task.rs:25 | `parse(s) == parse(ascii_lowercase(s))` |
| `StudioTask.TrimLowercase` | lib/task.rs:25 | trimming and ASCII lower-casing commute |
| `StudioTask.TrimIdempotent` | lib/task.rs:25 | trimming twice is trimming once |
| `StudioTask.ParseIgnoresWhitespace` | lib/task.rs:25 | `parse(trim(s)) == parse(s)` |
| `StudioTask.Name` | lib/task.rs:34-48 | the name of a task is one of the four wire names `EditPlace`, `EditFile`, `StartServer`, `StartClient`, and is PascalCase; with `ParseName` each task gets its own |
| `StudioTask.ParseName` | lib/task.rs:24-48 | round trip: `parse(name(t)) == Some(t)` |
| `StudioTask.NameInjective` | lib/task.rs:41-48 | different tasks have different names |
| `StudioTask.FromStr` | lib/task.rs:51-56 | fails with `UnknownTask(s)`, carrying the untrimmed input, exactly when `parse(s)` is `None`; otherwise yields the parsed task |
| `StudioTask.FromStrDisplay` | lib/task.rs:53-61 | `from_str(t.to_string()) == Ok(t)` |
| `StudioTask.Display` | lib/task.rs:58-62 | the `Display` form is `name(t)` |
| `StudioTask.ToOsString` | lib/task.rs:64-68 | the `OsString` form is `name(t)` |
| `Opener.PairsFlatten` | lib/opener.rs:49-57 | a list of pairs, put on the command line key then value, reads back as the same pairs |
| `Opener.FlattenPairs` | lib/opener.rs:49-57 | an even-length argument list is exactly the command-line form of its pairs |
| `Opener.FlattenAppend` | lib/opener.rs:49-57 | the command-line form of appended pair lists is the appended command-line forms |
| `Opener.PairsAppend` | lib/opener.rs:54-55 | appending whole pairs to whole pairs appends their readings: earlier pairs are never disturbed |
| `Opener.PairsExtend` | lib/opener.rs:54-55 | pushing the arguments of whole pairs onto an even-length list extends its reading by exactly those pairs |
| `Opener.Lookup` | lib/opener.rs:49-57 | finds a value exactly when the key is present, and then a pair holding that key and value |
| `Opener.LookupFirst` | lib/opener.rs:49-57 | when a key occurs several times, the lookup gives the value of its first occurrence |
| `Opener.StagingPath` | lib/opener.rs:156-159 | the copy target is `server.rbxl` inside `<local data>/Roblox` |
| `Opener.ZeroPairsAsArgs` | lib/opener.rs:62-69 | `with_zeros` appends `-creatorType 0 -creatorId 0 -universeId 0 -placeId 0`, in that order |
| `Opener.OpenPlacePairsAsArgs` | lib/opener.rs:105-109 | `open_place` appends `-task EditPlace -universeId <u> -placeId <p>` |
| `Opener.OpenFilePairsAsArgs` | lib/opener.rs:132-134 | `open_file` appends `-task EditFile -localPlaceFile <path text>` |
| `Opener.SessionPairsAsArgs` | lib/opener.rs:164-170 | a session block is `-task <name> -server <addr> -port <port>` followed by the four zero pairs |
| `Opener.SessionKeysUnique` | lib/opener.rs:200-207 | the seven keys of a server or client block are distinct |
| `Opener.SessionArgsReadBack` | lib/opener.rs:164-170 | read back from the command line, a session block gives the task name, the server address and the port text under their keys |
| `Opener.OpenPlaceArgsReadBack` | lib/opener.rs:105-109 | an online-place block reads back with distinct keys, the `EditPlace` task and both ids |
| `Opener.ServerWithClientsReadBack` | lib/opener.rs:181-192 | from a fresh builder, a server with clients has eight distinct keys, task `StartServer`, and ends with the client count pair |
| `Opener.RobloxStudioOpener.constructor` | lib/opener.rs:32-38 | a new builder has no arguments, address 127.0.0.1 and port 50608 |
| `Opener.RobloxStudioOpener.WithArg` | lib/opener.rs:49-57 | appends exactly the key then the value, so the arguments read back as the old pairs plus this one; nothing else changes |
| `Opener.RobloxStudioOpener.WithZeros` | lib/opener.rs:62-69 | appends exactly the four zero pairs |
| `Opener.RobloxStudioOpener.WithServerAddr` | lib/opener.rs:79-85 | changes only the address |
| `Opener.RobloxStudioOpener.WithServerPort` | lib/opener.rs:94-97 | changes only the port |
| `Opener.RobloxStudioOpener.OpenPlace` | lib/opener.rs:105-109 | cannot fail; appends exactly the online-place block |
| `Opener.RobloxStudioOpener.OpenFile` | lib/opener.rs:121-135 | canonicalize failure gives `PathCanonicalize`, a non-text canonical path gives `PathToString(full path)`, and otherwise the edit-file block with the canonical text is appended; errors change nothing |
| `Opener.RobloxStudioOpener.StartServer` | lib/opener.rs:148-171 | fails in order on canonicalize, local data directory, copy to `<local>/Roblox/server.rbxl`; the copy is requested only after the first two succeed; only after a successful copy is the `StartServer` block with the current address and port appended |
| `Opener.RobloxStudioOpener.StartServerWithClients` | lib/opener.rs:181-192 | `start_server`'s outcome, with its errors unchanged, and on success one more pair `-numtestserverplayersuponstartup <n>` |
| `Opener.RobloxStudioOpener.StartClient` | lib/opener.rs:200-207 | cannot fail; appends the `StartClient` block (14 arguments) with the address and port held at the call |
| `Opener.RobloxStudioOpener.WithSession` | lib/opener.rs:164-170 | the pushes shared by `start_server` and `start_client`: appends exactly the session block for the given task with the address and port held at the call, and leaves the address and port alone |
| `Opener.RobloxStudioOpener.Run` | lib/opener.rs:220-237 | a discovery error is returned and nothing is spawned; otherwise the spawn request is the discovered executable with exactly the accumulated arguments, and a spawn error comes back as `Io` |
| `Paths.StudioPaths.Clone` | lib/paths/mod.rs:23-26 | a clone observes the same four paths |
| `Paths.FromInner` | lib/paths/mod.rs:44-87 | the accessors `Exe`, `Content`, `UserPlugins` and `BuiltInPlugins` (`exe`, `content`, `user_plugins`, `built_in_plugins`) of a wrapped record return the record's `exe`, `content`, `plugins_user` and `plugins_builtin`, not swapped |
| `Paths.New` | lib/paths/mod.rs:36-38 | the platform strategy's error passes through unchanged and its record is wrapped unmodified |
| `WindowsPaths.FindPathsDirect` | lib/paths/windows.rs:47-63 | finds something exactly when `root/RobloxStudioBeta.exe` exists, and then the executable is that path, the content path is the registry's, and built-in plugins are at `root/BuiltInPlugins` |
| `WindowsPaths.VersionedInstall` | lib/paths/windows.rs:78-85 | `RobloxStudioBeta.exe`, `content` and `BuiltInPlugins`, each directly in the version directory, with the user plugins path passed through |
| `WindowsPaths.FindPathsVersioned` | lib/paths/windows.rs:65-91 | the loop returns what the versioned search prescribes: `None` if `Versions` is not a directory or cannot be listed, else the scan of its entries |
| `WindowsPaths.ScanReturnsFirstMatch` | lib/paths/windows.rs:71-87 | the first directory entry holding the executable, with only readable entries before it, is the answer, with content and plugins under that directory |
| `WindowsPaths.ScanFoundIsFirstMatch` | lib/paths/windows.rs:71-87 | whatever the scan finds is at a first match |
| `WindowsPaths.ScanEmptyIffNoFirstMatch` | lib/paths/windows.rs:71-90 | the scan finds nothing exactly when no entry is a first match |
| `WindowsPaths.BadEntryAbortsScan` | lib/paths/windows.rs:72 | an `Err` entry ends the scan with `None`, even if a later entry would match |
| `WindowsPaths.SkippedEntry` | lib/paths/windows.rs:73-76 | an entry with an unreadable type or that is not a directory is passed over |
| `WindowsPaths.ScanEntries` | lib/paths/windows.rs:71-90 | the scan of the `Versions` entries: a found installation's executable exists, sits in a directory directly under `Versions`, and the user plugins path is passed through |
| `WindowsPaths.VersionedSearch` | lib/paths/windows.rs:65-91 | finds something only when `root/Versions` is a directory that can be listed, and then an existing executable one directory below it |
| `WindowsPaths.VersionedSearchFindsIff` | lib/paths/windows.rs:65-91 | the versioned search finds an installation exactly when `root/Versions` is a listable directory whose listing has a first match: an entry holding the executable with only readable, non-matching entries before it |
| `WindowsPaths.VersionedSearchReturnsFirstMatch` | lib/paths/windows.rs:71-87 | the versioned search returns the installation at the first match in iteration order, with content and plugins under that version directory |
| `WindowsPaths.UserPluginsDir` | lib/paths/windows.rs:31-34 | the user plugins directory is `Plugins` inside `<local data>/Roblox` |
| `WindowsPaths.New` | lib/paths/windows.rs:14-44 | fails in order: key open (`Io`), `ContentFolder` value (`Io`), no parent (`Io(NotFound)`), no local data dir (`LocalDataDirMissing`, even if an executable exists); then direct layout, then versioned scan, else `Io(NotFound, "Roblox Studio installation not found")`; every success has an existing exe and `<local>/Roblox/Plugins` |
| `MacosPaths.New` | lib/paths/macos.rs:8-22 | fails with `UserDocumentsDirMissing` exactly when there is no documents directory; otherwise the fixed bundle paths under `/Applications/RobloxStudio.app/Contents` and `<documents>/Roblox/Plugins` |

## Left out

- `RobloxStudioOpener::run`: redirecting the standard streams to null and not waiting for the child are OS plumbing and not modelled; `Run` stops at the spawn request.
- The real file system, registry and `dirs` calls are oracles; `fs::copy` is modelled only by the request it makes and its outcome, not by the bytes it writes.
- The registry value `ContentFolder` is given directly as a path; turning a Windows path string into components (`PathBuf::from`) is not modelled.
- The `Arc` around the path record and the thread-safety it gives are not modelled; the record is an immutable value.
- `cfg(target_os)` selection is not modelled: `Paths.New` takes the strategy's outcome. The Linux strategy in `lib/paths/linux.rs` is not part of this model.
- `OsString` arguments are modelled as strings. `with_arg` accepts any `Into<OsString>`, so a caller can push arguments that are not valid UTF-8; the model's `WithArg` takes only strings and does not cover them. `open_file` rejects a canonical path that is not text with `PathToString` before appending.
- The `Opener` variant of the error enum and the display texts of all variants are kept opaque.
- `Default` for the builder is `new` and is not modelled separately.
