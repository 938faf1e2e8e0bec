/**
 * The closed vocabulary of tasks Roblox Studio can be launched for
 * (`RobloxStudioTask`), its forgiving parser and its canonical wire names.
 */
module StudioTask {
  import opened Wrappers
  import opened StudioResult

  datatype Task = EditPlace | EditFile | StartServer | StartClient

  // ---------------------------------------------------------------------
  // The two string operations `parse` applies first: `str::trim` and
  // `str::to_ascii_lowercase`.

  /** `char::is_whitespace`: the Unicode White_Space property. */
  predicate IsWhitespace(c: char) {
    || ('\t' <= c <= '\r') || c == ' '
    || c == '\U{85}' || c == '\U{A0}' || c == '\U{1680}'
    || ('\U{2000}' <= c <= '\U{200A}')
    || c == '\U{2028}' || c == '\U{2029}' || c == '\U{202F}' || c == '\U{205F}' || c == '\U{3000}'
  }

  predicate IsAsciiUpper(c: char) {
    'A' <= c <= 'Z'
  }

  predicate IsAsciiLower(c: char) {
    'a' <= c <= 'z'
  }

  function ToAsciiLower(c: char): (l: char)
    ensures !IsAsciiUpper(l)
    ensures IsAsciiUpper(c) ==> l as int == c as int + 32
    ensures !IsAsciiUpper(c) ==> l == c
  {
    if IsAsciiUpper(c) then (c as int + 32) as char else c
  }

  /** `str::to_ascii_lowercase`: ASCII capitals become small letters, all else stays. */
  function AsciiLowercase(s: string): (r: string)
    ensures |r| == |s|
    ensures forall i :: 0 <= i < |r| ==> !IsAsciiUpper(r[i])
    ensures forall i :: 0 <= i < |s| && IsAsciiUpper(s[i]) ==> r[i] as int == s[i] as int + 32
    ensures forall i :: 0 <= i < |s| && !IsAsciiUpper(s[i]) ==> r[i] == s[i]
  {
    seq(|s|, i requires 0 <= i < |s| => ToAsciiLower(s[i]))
  }

  /** `str::trim_start`: drops the leading run of whitespace. */
  function TrimStart(s: string): (r: string)
    ensures |r| <= |s| && r == s[|s| - |r|..]
    ensures forall i :: 0 <= i < |s| - |r| ==> IsWhitespace(s[i])
    ensures r == [] || !IsWhitespace(r[0])
    decreases |s|
  {
    if |s| > 0 && IsWhitespace(s[0]) then TrimStart(s[1..]) else s
  }

  /** `str::trim_end`: drops the trailing run of whitespace. */
  function TrimEnd(s: string): (r: string)
    ensures |r| <= |s| && r == s[..|r|]
    ensures forall i :: |r| <= i < |s| ==> IsWhitespace(s[i])
    ensures r == [] || !IsWhitespace(r[|r| - 1])
    decreases |s|
  {
    if |s| > 0 && IsWhitespace(s[|s| - 1]) then TrimEnd(s[..|s| - 1]) else s
  }

  /** `r` is the slice of `s` at `i`, and everything outside it is whitespace. */
  predicate TrimmedAt(s: string, i: int, r: string) {
    && 0 <= i && i + |r| <= |s| && r == s[i..i + |r|]
    && (forall k :: 0 <= k < i ==> IsWhitespace(s[k]))
    && (forall k :: i + |r| <= k < |s| ==> IsWhitespace(s[k]))
  }

  /**
   * `str::trim`: a slice of `s` that neither starts nor ends with
   * whitespace, with only whitespace cut off on either side.
   */
  function Trim(s: string): (r: string)
    ensures r == [] || (!IsWhitespace(r[0]) && !IsWhitespace(r[|r| - 1]))
    ensures exists i :: TrimmedAt(s, i, r)
  {
    TrimSlice(s);
    TrimEnd(TrimStart(s))
  }

  lemma TrimSlice(s: string)
    ensures TrimmedAt(s, |s| - |TrimStart(s)|, TrimEnd(TrimStart(s)))
  {
    SliceTrimmed(s, TrimStart(s), TrimEnd(TrimStart(s)));
  }

  /** Cutting whitespace off the front and then off the back leaves a trimmed slice. */
  lemma SliceTrimmed(s: string, t: string, r: string)
    requires |t| <= |s| && t == s[|s| - |t|..]
    requires forall k :: 0 <= k < |s| - |t| ==> IsWhitespace(s[k])
    requires |r| <= |t| && r == t[..|r|]
    requires forall k :: |r| <= k < |t| ==> IsWhitespace(t[k])
    ensures TrimmedAt(s, |s| - |t|, r)
  {
    var i := |s| - |t|;
    forall k | i + |r| <= k < |s| ensures IsWhitespace(s[k]) {
      assert s[k] == t[k - i];
    }
  }

  // ---------------------------------------------------------------------
  // Parsing and naming.

  /** `RobloxStudioTask::parse`: trim, lower-case, then match the known spellings. */
  function Parse(s: string): (r: Option<Task>)
    ensures r.Some? ==> AsciiLowercase(Trim(s)) in Spellings(r.value)
    ensures r.None? ==> forall t :: AsciiLowercase(Trim(s)) !in Spellings(t)
  {
    var key := AsciiLowercase(Trim(s));
    NoTaskSpelled(key);
    MatchKey(key)
  }

  /** A key that spells none of the four tasks spells no task at all. */
  lemma NoTaskSpelled(key: string)
    ensures key !in Spellings(EditPlace) && key !in Spellings(EditFile)
         && key !in Spellings(StartServer) && key !in Spellings(StartClient)
         ==> forall t: Task :: key !in Spellings(t)
  {
    if key !in Spellings(EditPlace) && key !in Spellings(EditFile)
       && key !in Spellings(StartServer) && key !in Spellings(StartClient) {
      forall t: Task ensures key !in Spellings(t) {
        match t
        case EditPlace =>
        case EditFile =>
        case StartServer =>
        case StartClient =>
      }
    }
  }

  /** The `match` arms of `parse`, applied to the trimmed, lower-cased input. */
  function MatchKey(key: string): (r: Option<Task>)
    ensures r.Some? ==> key in Spellings(r.value)
    ensures r.None? ==> key !in Spellings(EditPlace) && key !in Spellings(EditFile)
    ensures r.None? ==> key !in Spellings(StartServer) && key !in Spellings(StartClient)
  {
    SpellingsLiterals();
    if key == "editplace" || key == "edit-place" || key == "edit_place" then Some(EditPlace)
    else if key == "editfile" || key == "edit-file" || key == "edit_file" then Some(EditFile)
    else if key == "startserver" || key == "start-server" || key == "start_server" then Some(StartServer)
    else if key == "startclient" || key == "start-client" || key == "start_client" then Some(StartClient)
    else None
  }

  /** PascalCase: an ASCII capital followed by ASCII letters only. */
  predicate IsPascalCase(s: string) {
    |s| > 0 && IsAsciiUpper(s[0]) &&
    forall i :: 0 <= i < |s| ==> IsAsciiUpper(s[i]) || IsAsciiLower(s[i])
  }

  /** `RobloxStudioTask::name`: the name Roblox Studio expects after `-task`. */
  function Name(t: Task): (r: string)
    ensures r in {"EditPlace", "EditFile", "StartServer", "StartClient"}
    ensures IsPascalCase(r)
  {
    match t
    case EditPlace => "EditPlace"
    case EditFile => "EditFile"
    case StartServer => "StartServer"
    case StartClient => "StartClient"
  }

  /** `FromStr::from_str`: `parse`, or `UnknownTask` carrying the input as given. */
  function FromStr(s: string): (r: Result<Task>)
    ensures r.Err? <==> Parse(s).None?
    ensures r.Err? ==> r.error == UnknownTask(s)
    ensures r.Ok? ==> Parse(s) == Some(r.value)
  {
    match Parse(s)
    case Some(t) => Ok(t)
    case None => Err(UnknownTask(s))
  }

  /** The `Display` form of a task. */
  function Display(t: Task): (r: string)
    ensures r == Name(t)
  {
    Name(t)
  }

  /** `From<RobloxStudioTask> for OsString`: the display form. */
  function ToOsString(t: Task): (r: string)
    ensures r == Name(t)
  {
    Display(t)
  }

  // ---------------------------------------------------------------------
  // What the parser accepts.

  /** The two lower-case words each task name is made of. */
  function Words(t: Task): (string, string) {
    match t
    case EditPlace => ("edit", "place")
    case EditFile => ("edit", "file")
    case StartServer => ("start", "server")
    case StartClient => ("start", "client")
  }

  /** The three accepted spellings: compact, `-`-separated and `_`-separated. */
  function Spellings(t: Task): set<string> {
    var (w1, w2) := Words(t);
    {w1 + w2, w1 + "-" + w2, w1 + "_" + w2}
  }

  /**
   * `parse` accepts a string exactly when its trimmed, lower-cased form is
   * one of the three spellings of some task, and then yields that task.
   */
  lemma ParseAcceptsExactlySpellings(s: string, t: Task)
    ensures Parse(s) == Some(t) <==> AsciiLowercase(Trim(s)) in Spellings(t)
  {
    MatchKeySpellings(AsciiLowercase(Trim(s)), t);
  }

  /** Every other string is rejected. */
  lemma ParseRejectsOthers(s: string)
    ensures Parse(s).None? <==> forall t: Task :: AsciiLowercase(Trim(s)) !in Spellings(t)
  {
    var key := AsciiLowercase(Trim(s));
    if Parse(s).None? {
      forall t: Task ensures key !in Spellings(t) {
        MatchKeySpellings(key, t);
      }
    } else {
      MatchKeySpellings(key, Parse(s).value);
    }
  }

  /** The arms of the `match` are exactly the spellings, each leading to its own task. */
  lemma MatchKeySpellings(key: string, t: Task)
    ensures MatchKey(key) == Some(t) <==> key in Spellings(t)
  {
    if key in Spellings(t) && MatchKey(key) != Some(t) {
      SpellingsDisjoint(t, MatchKey(key).value);
    }
  }

  lemma SpellingsLiterals()
    ensures Spellings(EditPlace) == {"editplace", "edit-place", "edit_place"}
    ensures Spellings(EditFile) == {"editfile", "edit-file", "edit_file"}
    ensures Spellings(StartServer) == {"startserver", "start-server", "start_server"}
    ensures Spellings(StartClient) == {"startclient", "start-client", "start_client"}
  {
    assert "edit" + "place" == "editplace";
    assert "edit" + "-" + "place" == "edit-place";
    assert "edit" + "_" + "place" == "edit_place";
    assert "edit" + "file" == "editfile";
    assert "edit" + "-" + "file" == "edit-file";
    assert "edit" + "_" + "file" == "edit_file";
    assert "start" + "server" == "startserver";
    assert "start" + "-" + "server" == "start-server";
    assert "start" + "_" + "server" == "start_server";
    assert "start" + "client" == "startclient";
    assert "start" + "-" + "client" == "start-client";
    assert "start" + "_" + "client" == "start_client";
  }

  /** No string is a spelling of two tasks. */
  lemma SpellingsDisjoint(t: Task, u: Task)
    requires t != u
    ensures Spellings(t) !! Spellings(u)
  {
    SpellingsLiterals();
  }

  /** Trimming leaves alone a string that starts and ends with ASCII letters. */
  lemma TrimLetters(s: string)
    requires |s| > 0
    requires IsAsciiUpper(s[0]) || IsAsciiLower(s[0])
    requires IsAsciiUpper(s[|s| - 1]) || IsAsciiLower(s[|s| - 1])
    ensures Trim(s) == s
  {
    assert !IsWhitespace(s[0]);
    assert TrimStart(s) == s;
    assert !IsWhitespace(s[|s| - 1]);
  }

  /** Task names carry no surrounding whitespace. */
  lemma TrimName(t: Task)
    ensures Trim(Name(t)) == Name(t)
  {
    var n := Name(t);
    TrimLetters(n);
  }

  /** Lower-casing a name gives its compact spelling. */
  lemma LowercaseName(t: Task)
    ensures AsciiLowercase(Name(t)) in Spellings(t)
  {
    SpellingsLiterals();
    match t
    case EditPlace => LowercaseText("EditPlace", "editplace");
    case EditFile => LowercaseText("EditFile", "editfile");
    case StartServer => LowercaseText("StartServer", "startserver");
    case StartClient => LowercaseText("StartClient", "startclient");
  }

  /** Lower-casing character by character. */
  lemma LowercaseText(s: string, l: string)
    requires |s| == |l|
    requires forall i :: 0 <= i < |s| ==> ToAsciiLower(s[i]) == l[i]
    ensures AsciiLowercase(s) == l
  {
  }

  /** `parse(name(t)) == Some(t)`. */
  lemma ParseName(t: Task)
    ensures Parse(Name(t)) == Some(t)
  {
    TrimName(t);
    LowercaseName(t);
    MatchKeySpellings(AsciiLowercase(Name(t)), t);
  }

  /** Different tasks have different names. */
  lemma NameInjective(t: Task, u: Task)
    requires Name(t) == Name(u)
    ensures t == u
  {
    ParseName(t);
    ParseName(u);
  }

  /** The display form parses back through `from_str`. */
  lemma FromStrDisplay(t: Task)
    ensures FromStr(Display(t)) == Ok(t)
  {
    ParseName(t);
  }

  // ---------------------------------------------------------------------
  // Case and whitespace do not matter.

  lemma LowercaseIdempotent(s: string)
    ensures AsciiLowercase(AsciiLowercase(s)) == AsciiLowercase(s)
  {
  }

  /** Lower-casing never turns whitespace into something else, or the reverse. */
  lemma LowerKeepsWhitespace(c: char)
    ensures IsWhitespace(ToAsciiLower(c)) == IsWhitespace(c)
  {
    if IsAsciiUpper(c) {
      assert IsAsciiLower(ToAsciiLower(c));
    }
  }

  /** Lower-casing maps the first character and the rest separately. */
  lemma LowercaseHead(s: string)
    requires |s| > 0
    ensures AsciiLowercase(s)[0] == ToAsciiLower(s[0])
    ensures AsciiLowercase(s)[1..] == AsciiLowercase(s[1..])
  {
  }

  /** Lower-casing maps the last character and the rest separately. */
  lemma LowercaseLast(s: string)
    requires |s| > 0
    ensures AsciiLowercase(s)[|s| - 1] == ToAsciiLower(s[|s| - 1])
    ensures AsciiLowercase(s)[..|s| - 1] == AsciiLowercase(s[..|s| - 1])
  {
  }

  /** One step of `TrimStart`. */
  lemma TrimStartStep(s: string)
    requires |s| > 0
    ensures TrimStart(s) == if IsWhitespace(s[0]) then TrimStart(s[1..]) else s
  {
  }

  /** One step of `TrimEnd`. */
  lemma TrimEndStep(s: string)
    requires |s| > 0
    ensures TrimEnd(s) == if IsWhitespace(s[|s| - 1]) then TrimEnd(s[..|s| - 1]) else s
  {
  }

  lemma {:induction false} TrimStartLowercase(s: string)
    ensures TrimStart(AsciiLowercase(s)) == AsciiLowercase(TrimStart(s))
    decreases |s|
  {
    if |s| > 0 {
      var l := AsciiLowercase(s);
      LowercaseHead(s);
      LowerKeepsWhitespace(s[0]);
      TrimStartStep(s);
      TrimStartStep(l);
      if IsWhitespace(s[0]) {
        TrimStartLowercase(s[1..]);
      }
    }
  }

  lemma {:induction false} TrimEndLowercase(s: string)
    ensures TrimEnd(AsciiLowercase(s)) == AsciiLowercase(TrimEnd(s))
    decreases |s|
  {
    if |s| > 0 {
      var l := AsciiLowercase(s);
      LowercaseLast(s);
      LowerKeepsWhitespace(s[|s| - 1]);
      TrimEndStep(s);
      TrimEndStep(l);
      if IsWhitespace(s[|s| - 1]) {
        TrimEndLowercase(s[..|s| - 1]);
      }
    }
  }

  /** Lower-casing only touches letters, so it commutes with trimming. */
  lemma TrimLowercase(s: string)
    ensures Trim(AsciiLowercase(s)) == AsciiLowercase(Trim(s))
  {
    TrimStartLowercase(s);
    TrimEndLowercase(TrimStart(s));
  }

  /** `parse` is case-insensitive. */
  lemma ParseIgnoresCase(s: string)
    ensures Parse(AsciiLowercase(s)) == Parse(s)
  {
    TrimLowercase(s);
    LowercaseIdempotent(Trim(s));
  }

  /** Trimming twice is trimming once. */
  lemma TrimIdempotent(s: string)
    ensures Trim(Trim(s)) == Trim(s)
  {
    var r := Trim(s);
    assert TrimStart(r) == r;
    assert TrimEnd(r) == r;
  }

  /** `parse` ignores leading and trailing whitespace. */
  lemma ParseIgnoresWhitespace(s: string)
    ensures Parse(Trim(s)) == Parse(s)
  {
    TrimIdempotent(s);
    assert AsciiLowercase(Trim(Trim(s))) == AsciiLowercase(Trim(s));
  }
}
