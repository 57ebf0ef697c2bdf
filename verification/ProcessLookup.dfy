/** The Linux process scan: from the entries of the process directory to the LCU parameters. */
module ProcessLookup {
  import opened Outcomes
  import opened Decimal
  import opened Strings
  import LaunchPattern
  import opened LaunchCommand

  newtype uint16 = x: int | 0 <= x < 0x1_0000

  datatype LcuParameters = LcuParameters(remotingAuthToken: string, appPort: uint16)

  /**
   The exceptions of the lookup. `PortOutOfRange` is the `std::out_of_range` that `std::stoi` throws,
   which the documentation does not list.
   */
  datatype LookupError = PathNotFound | LcuNotRunning | LcuParametersMissing | PortOutOfRange

  /** A directory entry: its file name and the text of the `cmdline` file below it (empty if unreadable). */
  datatype Entry = Entry(name: string, cmdline: string)

  /** The entries iteration yields; `complete` is false when opening or advancing the iterator then throws. */
  datatype ProcDirectory = ProcDirectory(entries: seq<Entry>, complete: bool)

  const CLIENT_EXECUTABLE := "LeagueClientUx.exe"

  const INT_MAX := 0x7FFF_FFFF

  /** `path::stem`: the name up to its last dot, unless that dot is the first character. */
  function Stem(name: string): string {
    StemBefore(name, |name|)
  }

  function StemBefore(name: string, k: nat): string
    requires k <= |name|
  {
    if k <= 1 then name
    else if name[k - 1] == '.' then name[..k - 1]
    else StemBefore(name, k - 1)
  }

  /** `std::getline`: everything before the first newline. */
  function FirstLine(text: string): string {
    if text == "" || text[0] == '\n' then "" else [text[0]] + FirstLine(text[1..])
  }

  predicate IsClient(e: Entry) {
    IsPositiveInteger(Stem(e.name)) && Contains(FirstLine(e.cmdline), CLIENT_EXECUTABLE)
  }

  /** An entry the scan has to skip: its stem is no number, or its first line does not name the client. */
  ghost predicate IsOther(e: Entry) {
    var stem := Stem(e.name);
    || stem == ""
    || (exists i | 0 <= i < |stem| :: !('0' <= stem[i] <= '9'))
    || !Contains(FirstLine(e.cmdline), "LeagueClientUx.exe")
  }

  lemma OthersAreNoClients(entries: seq<Entry>)
    ensures forall i | 0 <= i < |entries| :: IsOther(entries[i]) <==> !IsClient(entries[i])
  {
  }

  /** `get_lcu_process_command` as a function of what the iterator yields. */
  function ProcessCommand(dir: ProcDirectory): Result<string, LookupError> {
    CommandFrom(dir.entries, dir.complete)
  }

  function CommandFrom(entries: seq<Entry>, complete: bool): Result<string, LookupError> {
    if |entries| == 0 then (if complete then Err(LcuNotRunning) else Err(PathNotFound))
    else if IsClient(entries[0]) then Ok(FirstLine(entries[0].cmdline))
    else CommandFrom(entries[1..], complete)
  }

  /** `static_cast<uint16_t>(std::stoi(digits))`. */
  function PortOf(digits: string): Result<uint16, LookupError>
    requires AllDigits(digits)
  {
    if Value(digits) > INT_MAX then Err(PortOutOfRange)
    else Ok((Value(digits) % 0x1_0000) as uint16)
  }

  function ParametersFrom(command: string): Result<LcuParameters, LookupError> {
    match ExtractRemotingAuthToken(command)
    case None => Err(LcuParametersMissing)
    case Some(token) =>
      AppPortIsPositiveInteger(command);
      match ExtractAppPort(command)
      case None => Err(LcuParametersMissing)
      case Some(digits) =>
        match PortOf(digits)
        case Err(e) => Err(e)
        case Ok(port) => Ok(LcuParameters(token, port))
  }

  function Parameters(dir: ProcDirectory): Result<LcuParameters, LookupError> {
    match ProcessCommand(dir)
    case Err(e) => Err(e)
    case Ok(command) => ParametersFrom(command)
  }

  /** The scan: skip entries that are not processes, return at the first line that names the client. */
  method GetLcuProcessCommand(dir: ProcDirectory) returns (r: Result<string, LookupError>)
    ensures r == ProcessCommand(dir)
    ensures r.Err? <==> forall i | 0 <= i < |dir.entries| :: IsOther(dir.entries[i])
    ensures r.Ok? ==> Contains(r.value, "LeagueClientUx.exe")
    ensures r.Ok? ==>
              exists i | 0 <= i < |dir.entries| ::
                && !IsOther(dir.entries[i])
                && (forall j | 0 <= j < i :: IsOther(dir.entries[j]))
                && r.value == FirstLine(dir.entries[i].cmdline)
    ensures r.Err? ==> r.error == if dir.complete then LcuNotRunning else PathNotFound
  {
    OthersAreNoClients(dir.entries);
    for i := 0 to |dir.entries|
      invariant forall j | 0 <= j < i :: !IsClient(dir.entries[j])
      invariant ProcessCommand(dir) == CommandFrom(dir.entries[i..], dir.complete)
    {
      var entry := dir.entries[i];
      if !IsPositiveInteger(Stem(entry.name)) {
        continue;
      }
      var command := FirstLine(entry.cmdline);
      if Contains(command, CLIENT_EXECUTABLE) {
        return Ok(command);
      }
    }
    if !dir.complete {
      return Err(PathNotFound);
    }
    return Err(LcuNotRunning);
  }

  method GetLcuProcessParameters(dir: ProcDirectory) returns (r: Result<LcuParameters, LookupError>)
    ensures r == Parameters(dir)
  {
    var command := GetLcuProcessCommand(dir);
    if command.Err? {
      return Err(command.error);
    }
    var token := ExtractRemotingAuthToken(command.value);
    if token.None? {
      return Err(LcuParametersMissing);
    }
    var digits := ExtractAppPort(command.value);
    if digits.None? {
      return Err(LcuParametersMissing);
    }
    AppPortIsPositiveInteger(command.value);
    var port := PortOf(digits.value);
    if port.Err? {
      return Err(port.error);
    }
    return Ok(LcuParameters(token.value, port.value));
  }

  // ---------- names and lines ----------

  lemma {:induction false} StemBeforeDot(name: string, k: nat, dot: nat)
    requires 0 < dot < k <= |name| && name[dot] == '.'
    requires forall i | dot < i < k :: name[i] != '.'
    ensures StemBefore(name, k) == name[..dot]
  {
    if k > dot + 1 {
      StemBeforeDot(name, k - 1, dot);
    }
  }

  lemma {:induction false} StemOfUndottedName(name: string, k: nat)
    requires k <= |name| && forall i | 0 < i < k :: name[i] != '.'
    ensures StemBefore(name, k) == name
  {
    if k > 1 {
      StemOfUndottedName(name, k - 1);
    }
  }

  /**
   The last dot decides: what follows it is dropped, so a dotted name can still read as a number; a name
   without a dot, but for one at its front, is its own stem.
   */
  lemma StemStopsAtLastDot(front: string, extension: string)
    requires '.' !in extension
    ensures front != "" ==> Stem(front + "." + extension) == front
    ensures Stem(extension) == extension && Stem("." + extension) == "." + extension
  {
    var name := front + "." + extension;
    assert forall i | |front| < i < |name| :: name[i] == extension[i - |front| - 1];
    if front != "" {
      StemBeforeDot(name, |name|, |front|);
      assert name[..|front|] == front;
    }
    StemOfUndottedName(extension, |extension|);
    StemOfUndottedName("." + extension, |extension| + 1);
  }

  /** A directory named by a process id always counts as a process. */
  lemma ProcessIdIsAccepted(pid: nat)
    ensures IsPositiveInteger(Stem(Print(pid)))
  {
    StemOfUndottedName(Print(pid), |Print(pid)|);
  }

  lemma {:induction false} FirstLineOfOneLine(text: string)
    requires '\n' !in text
    ensures FirstLine(text) == text
  {
    if text != "" {
      FirstLineOfOneLine(text[1..]);
      assert text == [text[0]] + text[1..];
    }
  }

  lemma {:induction false} FirstLineStopsAtNewline(line: string, rest: string)
    requires '\n' !in line
    ensures FirstLine(line + "\n" + rest) == line
  {
    var t := line + "\n" + rest;
    if line != "" {
      assert t[1..] == line[1..] + "\n" + rest;
      FirstLineStopsAtNewline(line[1..], rest);
      assert line == [line[0]] + line[1..];
    }
  }

  lemma {:induction false} JoinHasNoNewline(args: seq<string>, sep: char)
    requires sep != '\n' && forall i | 0 <= i < |args| :: '\n' !in args[i]
    ensures '\n' !in Join(args, sep)
  {
    if |args| > 0 {
      JoinHasNoNewline(args[1..], sep);
    }
  }

  lemma ContainsInMiddle(before: string, s: string, after: string, needle: string)
    requires Contains(s, needle)
    ensures Contains(before + s + after, needle)
  {
    var i :| 0 <= i <= |s| && OccursAt(needle, s, i);
    var j := |before| + i;
    assert (before + s + after)[j..j + |needle|] == s[i..i + |needle|];
    assert OccursAt(needle, before + s + after, j);
  }

  lemma {:induction false} JoinContainsArgument(args: seq<string>, sep: char, k: nat, needle: string)
    requires k < |args| && Contains(args[k], needle)
    ensures Contains(Join(args, sep), needle)
  {
    if k == 0 {
      var rest := [sep] + Join(args[1..], sep);
      ContainsInMiddle("", args[0], rest, needle);
      assert "" + args[0] + rest == Join(args, sep);
    } else {
      JoinContainsArgument(args[1..], sep, k - 1, needle);
      ContainsInMiddle(args[0] + [sep], Join(args[1..], sep), "", needle);
      assert args[0] + [sep] + Join(args[1..], sep) + "" == Join(args, sep);
    }
  }

  lemma {:induction false} EarlierEntriesAreSkipped(entries: seq<Entry>, complete: bool, k: nat)
    requires k < |entries| && IsClient(entries[k])
    requires forall j | 0 <= j < k :: !IsClient(entries[j])
    ensures CommandFrom(entries, complete) == Ok(FirstLine(entries[k].cmdline))
  {
    if k > 0 {
      EarlierEntriesAreSkipped(entries[1..], complete, k - 1);
    }
  }

  // ---------- the lookup as a whole ----------

  /**
   Which lookups fail, and how, and what the others return: without a client entry the way iteration ended
   decides, with one the values that the scanner finds in its line do.
   */
  lemma LookupOutcome(dir: ProcDirectory)
    ensures Parameters(dir) == Err(LcuNotRunning) <==>
            dir.complete && forall i | 0 <= i < |dir.entries| :: IsOther(dir.entries[i])
    ensures Parameters(dir) == Err(PathNotFound) <==>
            !dir.complete && forall i | 0 <= i < |dir.entries| :: IsOther(dir.entries[i])
    ensures forall k | 0 <= k < |dir.entries| && !IsOther(dir.entries[k])
                       && forall j | 0 <= j < k :: IsOther(dir.entries[j]) ::
              LineDecides(FirstLine(dir.entries[k].cmdline), Parameters(dir))
  {
    OthersAreNoClients(dir.entries);
    NoClientAtAll(dir.entries, dir.complete);
    forall k | 0 <= k < |dir.entries| && !IsOther(dir.entries[k])
               && forall j | 0 <= j < k :: IsOther(dir.entries[j])
      ensures LineDecides(FirstLine(dir.entries[k].cmdline), Parameters(dir))
    {
      EarlierEntriesAreSkipped(dir.entries, dir.complete, k);
      ClientLineDecides(FirstLine(dir.entries[k].cmdline));
    }
  }

  /** The three outcomes of a client's command line, each with its exact condition. */
  ghost predicate LineDecides(line: string, r: Result<LcuParameters, LookupError>) {
    var t := LaunchPattern.Scan("--remoting-auth-token=", TOKEN_CHARS, line);
    var p := LaunchPattern.Scan("--app-port=", DIGITS, line);
    && (p.Some? ==> IsPositiveInteger(p.value))
    && (r == Err(LcuParametersMissing) <==> t.None? || p.None?)
    && (r == Err(PortOutOfRange) <==> t.Some? && p.Some? && Value(p.value) > 0x7FFF_FFFF)
    && (r.Ok? <==> t.Some? && p.Some? && Value(p.value) <= 0x7FFF_FFFF)
    && (r.Ok? ==> r.value.remotingAuthToken == t.value && r.value.appPort as int == Value(p.value) % 0x1_0000)
  }

  lemma ClientLineDecides(line: string)
    ensures LineDecides(line, ParametersFrom(line))
  {
    ExtractOptionIsScan(TOKEN_OPTION, TOKEN_CHARS, line);
    ExtractOptionIsScan(PORT_OPTION, DIGITS, line);
    AppPortIsPositiveInteger(line);
  }

  lemma {:induction false} NoClientAtAll(entries: seq<Entry>, complete: bool)
    ensures CommandFrom(entries, complete).Err? <==> forall i | 0 <= i < |entries| :: !IsClient(entries[i])
    ensures CommandFrom(entries, complete).Err? ==>
              CommandFrom(entries, complete).error == if complete then LcuNotRunning else PathNotFound
  {
    if |entries| > 0 {
      NoClientAtAll(entries[1..], complete);
      assert forall i | 0 < i < |entries| :: entries[i] == entries[1..][i - 1];
    }
  }

  /** What a launch of the client looks like: where its two options and its executable stand. */
  ghost predicate IsLaunch(args: seq<string>, exe: nat, t: nat, token: string, p: nat, digits: string) {
    && exe < |args| && Contains(args[exe], "LeagueClientUx.exe")
    && t < |args| && args[t] == "--remoting-auth-token=" + token
    && (forall j | 0 <= j < t :: !Contains(args[j], "--remoting-auth-token="))
    && p < |args| && args[p] == "--app-port=" + digits
    && (forall j | 0 <= j < p :: !Contains(args[j], "--app-port="))
    && (forall i | 0 <= i < |args| :: '\n' !in args[i])
  }

  /** The separator is outside the options' alphabets: NUL under /proc, a space in the test fixtures. */
  predicate IsSeparator(sep: char) {
    sep != '\n' && sep !in TOKEN_OPTION && sep !in PORT_OPTION && sep !in TOKEN_CHARS
  }

  /** Entry number `k` is a process with this command line, and the entries before it are to be skipped. */
  ghost predicate Runs(dir: ProcDirectory, k: nat, args: seq<string>, sep: char) {
    && k < |dir.entries|
    && Stem(dir.entries[k].name) != ""
    && (forall i | 0 <= i < |Stem(dir.entries[k].name)| :: '0' <= Stem(dir.entries[k].name)[i] <= '9')
    && dir.entries[k].cmdline == Join(args, sep)
    && forall j | 0 <= j < k :: IsOther(dir.entries[j])
  }

  lemma LaunchIsFound(
    dir: ProcDirectory, k: nat, sep: char, args: seq<string>, exe: nat, t: nat, token: string, p: nat, digits: string)
    requires IsLaunch(args, exe, t, token, p, digits) && IsSeparator(sep) && Runs(dir, k, args, sep)
    ensures Parameters(dir) == ParametersFrom(Join(args, sep))
  {
    OthersAreNoClients(dir.entries);
    JoinHasNoNewline(args, sep);
    FirstLineOfOneLine(Join(args, sep));
    JoinContainsArgument(args, sep, exe, CLIENT_EXECUTABLE);
    EarlierEntriesAreSkipped(dir.entries, dir.complete, k);
  }

  /**
   The lookup inverts launching, for any argument list, any entries around the process, any texts after
   the two options: it returns the parts of them that their patterns capture.
   */
  lemma LookupInvertsLaunch(
    dir: ProcDirectory, k: nat, sep: char, args: seq<string>, exe: nat, t: nat, token: string, p: nat, digits: string)
    requires IsLaunch(args, exe, t, token, p, digits) && IsSeparator(sep) && Runs(dir, k, args, sep)
    ensures Kept(TOKEN_CHARS, token) != "" && Kept(DIGITS, digits) != "" ==>
              Parameters(dir) ==
              match PortOf(Kept(DIGITS, digits))
              case Err(e) => Err(e)
              case Ok(port) => Ok(LcuParameters(Kept(TOKEN_CHARS, token), port))
    ensures Parameters(dir).Ok? && Parameters(dir).value.remotingAuthToken == token ==> Fits(TOKEN_CHARS, token)
  {
    LaunchIsFound(dir, k, sep, args, exe, t, token, p, digits);
    ExtractionInvertsJoin(TOKEN_OPTION, TOKEN_CHARS, args, sep, t, token);
    ExtractionInvertsJoin(PORT_OPTION, DIGITS, args, sep, p, digits);
  }

  /**
   Port round trip: a port printed in decimal into the command line comes back exactly when it
   fits in 16 bits; larger numbers alias modulo 65536 or, past INT_MAX, fail.
   */
  lemma PortRoundTrip(n: nat)
    ensures PortOf(Print(n)).Ok? <==> n <= 0x7FFF_FFFF
    ensures n <= 0x7FFF_FFFF ==> PortOf(Print(n)).value as int == n % 0x1_0000
    ensures (PortOf(Print(n)).Ok? && PortOf(Print(n)).value as int == n) <==> n < 0x1_0000
  {
    ValueOfPrint(n);
  }

  lemma PrintedPortIsKept(port: nat)
    ensures Kept(DIGITS, Print(port)) == Print(port) != ""
  {
    assert Fits(DIGITS, Print(port));
  }

  /** Letters, digits, '-' and '_'. */
  predicate IsTokenText(token: string) {
    && token != ""
    && forall i | 0 <= i < |token| ::
         || 'a' <= token[i] <= 'z' || 'A' <= token[i] <= 'Z' || '0' <= token[i] <= '9'
         || token[i] == '-' || token[i] == '_'
  }

  /**
   Launch, lookup and port conversion together: token and printed port both come back exactly when the
   token is a non-empty text of the pattern's characters and the port is a port.
   */
  lemma LaunchRoundTrip(
    dir: ProcDirectory, k: nat, sep: char, args: seq<string>, exe: nat, t: nat, token: string, p: nat, port: nat)
    requires IsLaunch(args, exe, t, token, p, Print(port)) && IsSeparator(sep) && Runs(dir, k, args, sep)
    ensures IsTokenText(token) && port < 0x1_0000 <==>
            Parameters(dir).Ok? && Parameters(dir).value.remotingAuthToken == token
            && Parameters(dir).value.appPort as nat == port
  {
    assert IsTokenText(token) <==> Fits(TOKEN_CHARS, token);
    LookupInvertsLaunch(dir, k, sep, args, exe, t, token, p, Print(port));
    PortRoundTrip(port);
    PrintedPortIsKept(port);
  }
}
