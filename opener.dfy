/**
 * The launch-argument builder (`RobloxStudioOpener`). Its state is a flat
 * list of alternating keys and values plus the server address and port the
 * session tasks use. Each task method appends a fixed, ordered block.
 */
module Opener {
  import opened Wrappers
  import opened PathModel
  import opened StudioResult
  import opened Formatting
  import opened StudioTask
  import opened Os
  import Paths

  const DefaultServerAddr: Ipv4Addr := Localhost
  const DefaultServerPort: U16 := 50608

  /** The key whose value tells a server how many clients to start with it. */
  const NumClientsKey := "-numtestserverplayersuponstartup"

  // ---------------------------------------------------------------------
  // Arguments as key/value pairs. Each pair goes on the command line as two
  // consecutive arguments, the key and then the value.

  /** The command-line form of a list of pairs. */
  function Flatten(ps: seq<(string, string)>): (args: seq<string>)
    ensures |args| == 2 * |ps|
  {
    if ps == [] then [] else [ps[0].0, ps[0].1] + Flatten(ps[1..])
  }

  /** An argument list read back as consecutive (key, value) pairs. */
  function Pairs(args: seq<string>): (ps: seq<(string, string)>)
    requires |args| % 2 == 0
    ensures 2 * |ps| == |args|
  {
    if args == [] then [] else [(args[0], args[1])] + Pairs(args[2..])
  }

  lemma {:induction false} PairsFlatten(ps: seq<(string, string)>)
    ensures Pairs(Flatten(ps)) == ps
  {
    if ps != [] {
      PairsFlatten(ps[1..]);
    }
  }

  lemma {:induction false} FlattenPairs(args: seq<string>)
    requires |args| % 2 == 0
    ensures Flatten(Pairs(args)) == args
  {
    if args != [] {
      FlattenPairs(args[2..]);
    }
  }

  lemma {:induction false} FlattenAppend(ps: seq<(string, string)>, qs: seq<(string, string)>)
    ensures Flatten(ps + qs) == Flatten(ps) + Flatten(qs)
  {
    if ps == [] {
      assert ps + qs == qs;
    } else {
      assert (ps + qs)[0] == ps[0];
      assert (ps + qs)[1..] == ps[1..] + qs;
      FlattenAppend(ps[1..], qs);
    }
  }

  /** Appending whole pairs to whole pairs appends their readings. */
  lemma PairsAppend(a: seq<string>, b: seq<string>)
    requires |a| % 2 == 0 && |b| % 2 == 0
    ensures Pairs(a + b) == Pairs(a) + Pairs(b)
  {
    FlattenPairs(a);
    FlattenPairs(b);
    FlattenAppend(Pairs(a), Pairs(b));
    PairsFlatten(Pairs(a) + Pairs(b));
  }

  /**
   * The value paired with `key`, if the key occurs; `LookupFirst` shows it
   * is the value of the first occurrence.
   */
  function Lookup(ps: seq<(string, string)>, key: string): (v: Option<string>)
    ensures v.Some? <==> exists i :: 0 <= i < |ps| && ps[i].0 == key
    ensures v.Some? ==> exists i :: 0 <= i < |ps| && ps[i] == (key, v.value)
  {
    if ps == [] then None
    else if ps[0].0 == key then Some(ps[0].1)
    else Lookup(ps[1..], key)
  }

  /** Position `i` holds the first occurrence of `key`. */
  predicate FirstKeyAt(ps: seq<(string, string)>, key: string, i: int) {
    0 <= i < |ps| && ps[i].0 == key && forall j :: 0 <= j < i ==> ps[j].0 != key
  }

  /** A lookup yields the value of the key's first occurrence. */
  lemma {:induction false} LookupFirst(ps: seq<(string, string)>, key: string, i: int)
    requires FirstKeyAt(ps, key, i)
    ensures Lookup(ps, key) == Some(ps[i].1)
    decreases i
  {
    if i > 0 {
      assert ps[0].0 != key;
      assert FirstKeyAt(ps[1..], key, i - 1) by {
        forall j | 0 <= j < i - 1 ensures ps[1..][j].0 != key {
          assert ps[1..][j] == ps[j + 1];
        }
      }
      LookupFirst(ps[1..], key, i - 1);
    }
  }

  /** No key appears twice. */
  predicate UniqueKeys(ps: seq<(string, string)>) {
    forall i, j :: 0 <= i < j < |ps| ==> ps[i].0 != ps[j].0
  }

  // ---------------------------------------------------------------------
  // The blocks each task appends.

  /** What `with_zeros` appends: creator type, creator id, universe id and place id, all zero. */
  function ZeroPairs(): seq<(string, string)> {
    [("-creatorType", "0"), ("-creatorId", "0"), ("-universeId", "0"), ("-placeId", "0")]
  }

  /** What `open_place` appends. */
  function OpenPlacePairs(universeId: U64, placeId: U64): seq<(string, string)> {
    [("-task", Name(EditPlace)), ("-universeId", Decimal(universeId)), ("-placeId", Decimal(placeId))]
  }

  /** What `open_file` appends once the file's canonical path is known as text. */
  function OpenFilePairs(pathText: string): seq<(string, string)> {
    [("-task", Name(EditFile)), ("-localPlaceFile", pathText)]
  }

  /** What `start_server` and `start_client` append: task, server, port, then the zeros. */
  function SessionPairs(task: Task, addr: Ipv4Addr, port: U16): seq<(string, string)> {
    [("-task", Name(task)), ("-server", DottedQuad(addr)), ("-port", Decimal(port))] + ZeroPairs()
  }

  /** Where `start_server` copies the place file: `<local data>/Roblox/server.rbxl`. */
  function StagingPath(localDataDir: Path): (p: Path)
    ensures Parent(p) == Some(Join(localDataDir, "Roblox"))
    ensures FileName(p) == Some("server.rbxl")
  {
    Join(Join(localDataDir, "Roblox"), "server.rbxl")
  }

  /** One pair in front goes on the command line in front. */
  lemma FlattenCons(key: string, value: string, rest: seq<(string, string)>)
    ensures Flatten([(key, value)] + rest) == [key, value] + Flatten(rest)
  {
    assert ([(key, value)] + rest)[1..] == rest;
  }

  lemma ZeroPairsAsArgs()
    ensures Flatten(ZeroPairs()) == ["-creatorType", "0", "-creatorId", "0", "-universeId", "0", "-placeId", "0"]
  {
    FlattenCons("-placeId", "0", []);
    FlattenCons("-universeId", "0", [("-placeId", "0")]);
    FlattenCons("-creatorId", "0", [("-universeId", "0"), ("-placeId", "0")]);
    FlattenCons("-creatorType", "0", [("-creatorId", "0"), ("-universeId", "0"), ("-placeId", "0")]);
  }

  lemma OpenPlacePairsAsArgs(universeId: U64, placeId: U64)
    ensures Flatten(OpenPlacePairs(universeId, placeId))
         == ["-task", "EditPlace", "-universeId", Decimal(universeId), "-placeId", Decimal(placeId)]
  {
    FlattenCons("-placeId", Decimal(placeId), []);
    FlattenCons("-universeId", Decimal(universeId), [("-placeId", Decimal(placeId))]);
    FlattenCons("-task", "EditPlace", [("-universeId", Decimal(universeId)), ("-placeId", Decimal(placeId))]);
  }

  lemma OpenFilePairsAsArgs(pathText: string)
    ensures Flatten(OpenFilePairs(pathText)) == ["-task", "EditFile", "-localPlaceFile", pathText]
  {
    FlattenCons("-localPlaceFile", pathText, []);
    FlattenCons("-task", "EditFile", [("-localPlaceFile", pathText)]);
  }

  lemma SessionPairsAsArgs(task: Task, addr: Ipv4Addr, port: U16)
    ensures Flatten(SessionPairs(task, addr, port))
         == ["-task", Name(task), "-server", DottedQuad(addr), "-port", Decimal(port)] + Flatten(ZeroPairs())
  {
    SessionValuesAsArgs(Name(task), DottedQuad(addr), Decimal(port));
  }

  /** The session block for any three value texts. */
  lemma SessionValuesAsArgs(tv: string, sv: string, pv: string)
    ensures Flatten([("-task", tv), ("-server", sv), ("-port", pv)] + ZeroPairs())
         == ["-task", tv, "-server", sv, "-port", pv] + Flatten(ZeroPairs())
  {
    var z := ZeroPairs();
    assert [("-task", tv), ("-server", sv), ("-port", pv)] + z
        == [("-task", tv)] + ([("-server", sv)] + ([("-port", pv)] + z));
    FlattenCons("-port", pv, z);
    FlattenCons("-server", sv, [("-port", pv)] + z);
    FlattenCons("-task", tv, [("-server", sv)] + ([("-port", pv)] + z));
  }

  // ---------------------------------------------------------------------
  // What a request built from a fresh builder says.

  /** The seven keys of a session block are distinct. */
  lemma SessionKeysUnique(task: Task, addr: Ipv4Addr, port: U16)
    ensures UniqueKeys(SessionPairs(task, addr, port))
  {
  }

  /**
   * A session request read back from its command line: the task, the
   * server address and the port, each found under its key.
   */
  lemma SessionArgsReadBack(task: Task, addr: Ipv4Addr, port: U16)
    ensures var ps := Pairs(Flatten(SessionPairs(task, addr, port)));
      && Lookup(ps, "-task") == Some(Name(task))
      && Lookup(ps, "-server") == Some(DottedQuad(addr))
      && Lookup(ps, "-port") == Some(Decimal(port))
  {
    var ps := SessionPairs(task, addr, port);
    PairsFlatten(ps);
    assert Lookup(ps[2..], "-port") == Some(Decimal(port));
    assert Lookup(ps[1..], "-port") == Some(Decimal(port));
  }

  /** An online-place request read back: the task and both ids, each key once. */
  lemma OpenPlaceArgsReadBack(universeId: U64, placeId: U64)
    ensures var ps := Pairs(Flatten(OpenPlacePairs(universeId, placeId)));
      && UniqueKeys(ps)
      && Lookup(ps, "-task") == Some("EditPlace")
      && Lookup(ps, "-universeId") == Some(Decimal(universeId))
      && Lookup(ps, "-placeId") == Some(Decimal(placeId))
  {
    var ps := OpenPlacePairs(universeId, placeId);
    PairsFlatten(ps);
    assert Lookup(ps[2..], "-placeId") == Some(Decimal(placeId));
    assert Lookup(ps[1..], "-placeId") == Some(Decimal(placeId));
  }

  /**
   * A server started with clients from a fresh builder names every key
   * once, and its last pair is the client count.
   */
  lemma ServerWithClientsReadBack(addr: Ipv4Addr, port: U16, numClients: U8)
    ensures var ps := Pairs(Flatten(SessionPairs(Task.StartServer, addr, port) + [(NumClientsKey, Decimal(numClients))]));
      && UniqueKeys(ps) && |ps| == 8
      && Lookup(ps, "-task") == Some("StartServer")
      && ps[7] == (NumClientsKey, Decimal(numClients))
  {
    var base := SessionPairs(Task.StartServer, addr, port);
    var ps := base + [(NumClientsKey, Decimal(numClients))];
    PairsFlatten(ps);
    SessionKeysUnique(Task.StartServer, addr, port);
    assert forall i :: 0 <= i < |base| ==> |base[i].0| < |NumClientsKey|;
    UniqueKeysSnoc(base, NumClientsKey, Decimal(numClients));
    assert ps[0] == ("-task", "StartServer");
  }

  /** Appending whole pairs appends them to the reading. */
  lemma PairsExtend(args: seq<string>, ps: seq<(string, string)>)
    requires |args| % 2 == 0
    ensures Pairs(args + Flatten(ps)) == Pairs(args) + ps
  {
    var f := Flatten(ps);
    assert |f| % 2 == 0;
    PairsAppend(args, f);
    PairsFlatten(ps);
    assert Pairs(f) == ps;
  }

  /** A new key keeps the keys unique. */
  lemma UniqueKeysSnoc(ps: seq<(string, string)>, key: string, value: string)
    requires UniqueKeys(ps)
    requires forall i :: 0 <= i < |ps| ==> ps[i].0 != key
    ensures UniqueKeys(ps + [(key, value)])
  {
  }

  // ---------------------------------------------------------------------
  // The builder.

  class RobloxStudioOpener {
    var args: seq<string>
    var serverAddr: Ipv4Addr
    var serverPort: U16

    /**
     * Arguments are only ever added in key/value pairs, so `args` can always
     * be read back as the list of pairs added.
     */
    predicate Valid()
      reads this
    {
      |args| % 2 == 0
    }

    /** `new`: no arguments, the loopback address and the default port. */
    constructor ()
      ensures Valid()
      ensures args == [] && serverAddr == DefaultServerAddr && serverPort == DefaultServerPort
    {
      args := [];
      serverAddr := DefaultServerAddr;
      serverPort := DefaultServerPort;
    }

    /** `with_arg`: pushes the key, then the value. */
    method WithArg(key: string, value: string)
      requires Valid()
      modifies this
      ensures Valid()
      ensures args == old(args) + [key, value]
      ensures Pairs(args) == Pairs(old(args)) + [(key, value)]
      ensures serverAddr == old(serverAddr) && serverPort == old(serverPort)
    {
      ghost var before := args;
      args := args + [key];
      args := args + [value];
      assert [(key, value)][1..] == [];
      assert Flatten([(key, value)]) == [key, value];
      PairsExtend(before, [(key, value)]);
    }

    /** `with_zeros`. */
    method WithZeros()
      requires Valid()
      modifies this
      ensures Valid()
      ensures args == old(args) + Flatten(ZeroPairs())
      ensures Pairs(args) == Pairs(old(args)) + ZeroPairs()
      ensures serverAddr == old(serverAddr) && serverPort == old(serverPort)
    {
      PairsExtend(args, ZeroPairs());
      ZeroPairsAsArgs();
      WithArg("-creatorType", "0");
      WithArg("-creatorId", "0");
      WithArg("-universeId", "0");
      WithArg("-placeId", "0");
    }

    /** `with_server_addr`: only the address changes. */
    method WithServerAddr(addr: Ipv4Addr)
      requires Valid()
      modifies this
      ensures Valid()
      ensures serverAddr == addr && args == old(args) && serverPort == old(serverPort)
    {
      serverAddr := addr;
    }

    /** `with_server_port`: only the port changes. */
    method WithServerPort(port: U16)
      requires Valid()
      modifies this
      ensures Valid()
      ensures serverPort == port && args == old(args) && serverAddr == old(serverAddr)
    {
      serverPort := port;
    }

    /** `open_place`: cannot fail. */
    method OpenPlace(universeId: U64, placeId: U64)
      requires Valid()
      modifies this
      ensures Valid()
      ensures args == old(args) + Flatten(OpenPlacePairs(universeId, placeId))
      ensures Pairs(args) == Pairs(old(args)) + OpenPlacePairs(universeId, placeId)
      ensures serverAddr == old(serverAddr) && serverPort == old(serverPort)
    {
      PairsExtend(args, OpenPlacePairs(universeId, placeId));
      OpenPlacePairsAsArgs(universeId, placeId);
      WithArg("-task", ToOsString(EditPlace));
      WithArg("-universeId", Decimal(universeId));
      WithArg("-placeId", Decimal(placeId));
    }

    /**
     * `open_file`: canonicalizes the path, needs it as text, and only then
     * appends. A failed call leaves the arguments as they were.
     */
    method OpenFile(filePath: Path, host: Host) returns (r: Outcome)
      requires Valid()
      modifies this
      ensures Valid()
      ensures serverAddr == old(serverAddr) && serverPort == old(serverPort)
      ensures host.canonicalize(filePath).IoErr? ==>
        r == Fail(PathCanonicalize(host.canonicalize(filePath).error.text)) && args == old(args)
      ensures host.canonicalize(filePath).IoOk? ==>
        var full := host.canonicalize(filePath).value;
        && (host.toStr(full).None? ==> r == Fail(PathToString(full)) && args == old(args))
        && (host.toStr(full).Some? ==>
              && r == Pass && args == old(args) + Flatten(OpenFilePairs(host.toStr(full).value))
              && Pairs(args) == Pairs(old(args)) + OpenFilePairs(host.toStr(full).value))
    {
      var canonical := host.canonicalize(filePath);
      if canonical.IoErr? {
        return Fail(PathCanonicalize(canonical.error.text));
      }
      var full := canonical.value;
      var text := host.toStr(full);
      if text.None? {
        return Fail(PathToString(full));
      }
      PairsExtend(args, OpenFilePairs(text.value));
      OpenFilePairsAsArgs(text.value);
      WithArg("-task", ToOsString(EditFile));
      WithArg("-localPlaceFile", text.value);
      return Pass;
    }

    /**
     * `start_server`: canonicalizes the place file, finds the local data
     * directory, copies the file to the staging path, and only after a
     * successful copy appends the session block with the address and port
     * held at the time of the call. `copied` is the copy it asked the OS
     * for, if it got that far.
     */
    method StartServer(filePath: Path, host: Host) returns (r: Outcome, copied: Option<(Path, Path)>)
      requires Valid()
      modifies this
      ensures Valid()
      ensures serverAddr == old(serverAddr) && serverPort == old(serverPort)
      ensures host.canonicalize(filePath).IoErr? ==>
        && r == Fail(PathCanonicalize(host.canonicalize(filePath).error.text))
        && copied == None && args == old(args)
      ensures host.canonicalize(filePath).IoOk? && host.dataLocalDir.None? ==>
        r == Fail(LocalDataDirMissing) && copied == None && args == old(args)
      ensures host.canonicalize(filePath).IoOk? && host.dataLocalDir.Some? ==>
        var source, target := host.canonicalize(filePath).value, StagingPath(host.dataLocalDir.value);
        && copied == Some((source, target))
        && (host.copy(source, target).IoErr? ==>
              r == Fail(LocalDataDirCopyPlace(host.copy(source, target).error.text)) && args == old(args))
        && (host.copy(source, target).IoOk? ==>
              && r == Pass && args == old(args) + Flatten(SessionPairs(Task.StartServer, serverAddr, serverPort))
              && Pairs(args) == Pairs(old(args)) + SessionPairs(Task.StartServer, serverAddr, serverPort))
    {
      var canonical := host.canonicalize(filePath);
      if canonical.IoErr? {
        return Fail(PathCanonicalize(canonical.error.text)), None;
      }
      var source := canonical.value;
      if host.dataLocalDir.None? {
        return Fail(LocalDataDirMissing), None;
      }
      var target := Join(Join(host.dataLocalDir.value, "Roblox"), "server.rbxl");
      copied := Some((source, target));
      var outcome := host.copy(source, target);
      if outcome.IoErr? {
        return Fail(LocalDataDirCopyPlace(outcome.error.text)), copied;
      }
      WithSession(Task.StartServer);
      r := Pass;
    }

    /**
     * `start_server_with_clients`: `start_server`, then the client count.
     * An error of `start_server` is passed on unchanged.
     */
    method StartServerWithClients(filePath: Path, numClients: U8, host: Host)
      returns (r: Outcome, copied: Option<(Path, Path)>)
      requires Valid()
      modifies this
      ensures Valid()
      ensures serverAddr == old(serverAddr) && serverPort == old(serverPort)
      ensures host.canonicalize(filePath).IoErr? ==>
        && r == Fail(PathCanonicalize(host.canonicalize(filePath).error.text))
        && copied == None && args == old(args)
      ensures host.canonicalize(filePath).IoOk? && host.dataLocalDir.None? ==>
        r == Fail(LocalDataDirMissing) && copied == None && args == old(args)
      ensures host.canonicalize(filePath).IoOk? && host.dataLocalDir.Some? ==>
        var source, target := host.canonicalize(filePath).value, StagingPath(host.dataLocalDir.value);
        && copied == Some((source, target))
        && (host.copy(source, target).IoErr? ==>
              r == Fail(LocalDataDirCopyPlace(host.copy(source, target).error.text)) && args == old(args))
        && (host.copy(source, target).IoOk? ==>
              && r == Pass
              && args == old(args) + Flatten(SessionPairs(Task.StartServer, serverAddr, serverPort)
                 + [(NumClientsKey, Decimal(numClients))])
              && Pairs(args) == Pairs(old(args)) + SessionPairs(Task.StartServer, serverAddr, serverPort)
                 + [(NumClientsKey, Decimal(numClients))])
    {
      r, copied := StartServer(filePath, host);
      if r.Fail? {
        return;
      }
      WithArg(NumClientsKey, Decimal(numClients));
      FlattenAppend(SessionPairs(Task.StartServer, serverAddr, serverPort), [(NumClientsKey, Decimal(numClients))]);
      FlattenCons(NumClientsKey, Decimal(numClients), []);
    }

    /** `start_client`: cannot fail; uses the address and port held now. */
    method StartClient()
      requires Valid()
      modifies this
      ensures Valid()
      ensures args == old(args) + Flatten(SessionPairs(Task.StartClient, serverAddr, serverPort))
      ensures Pairs(args) == Pairs(old(args)) + SessionPairs(Task.StartClient, serverAddr, serverPort)
      ensures serverAddr == old(serverAddr) && serverPort == old(serverPort)
    {
      WithSession(Task.StartClient);
    }

    /**
     * The pushes `start_server` and `start_client` share: the task, the
     * configured address and port, then the zero flags.
     */
    method WithSession(task: Task)
      requires Valid()
      modifies this
      ensures Valid()
      ensures args == old(args) + Flatten(SessionPairs(task, serverAddr, serverPort))
      ensures Pairs(args) == Pairs(old(args)) + SessionPairs(task, serverAddr, serverPort)
      ensures serverAddr == old(serverAddr) && serverPort == old(serverPort)
    {
      PairsExtend(args, SessionPairs(task, serverAddr, serverPort));
      var addrText := DottedQuad(serverAddr);
      var portText := Decimal(serverPort);
      ghost var before := args;
      SessionPairsAsArgs(task, serverAddr, serverPort);
      WithArg("-task", ToOsString(task));
      WithArg("-server", addrText);
      WithArg("-port", portText);
      ghost var head := ["-task", Name(task), "-server", addrText, "-port", portText];
      assert args == before + head;
      WithZeros();
      assert args == before + (head + Flatten(ZeroPairs()));
    }

    /**
     * `run`, up to the spawn: given the outcome of installation discovery
     * and the OS's answer to a spawn request, either fails with discovery's
     * error without asking to spawn anything, or asks to start the
     * discovered executable with exactly the accumulated arguments.
     */
    method Run(discovered: Result<Paths.StudioPaths>, spawn: Command -> Option<IoError>)
      returns (r: Outcome, launched: Option<Command>)
      requires Valid()
      ensures discovered.Err? ==> r == Fail(discovered.error) && launched == None
      ensures discovered.Ok? ==>
        && launched == Some(Command(discovered.value.Exe(), args))
        && r == (if spawn(launched.value).Some? then Fail(Io(spawn(launched.value).value)) else Pass)
    {
      if discovered.Err? {
        return Fail(discovered.error), None;
      }
      var command := Command(discovered.value.Exe(), args);
      launched := Some(command);
      var spawnError := spawn(command);
      if spawnError.Some? {
        return Fail(Io(spawnError.value)), launched;
      }
      r := Pass;
    }
  }
}
