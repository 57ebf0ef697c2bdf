/** Extraction of the LCU parameters from a launch command, and how it undoes joining an argument list. */
module LaunchCommand {
  import opened Outcomes
  import Decimal
  import opened Strings
  import opened LaunchPattern

  const TOKEN_OPTION := "--remoting-auth-token="
  const PORT_OPTION := "--app-port="
  const RIOT_PORT_OPTION := "--riotclient-app-port="

  // a-z, A-Z, 0-9, '-' and '_'
  const TOKEN_CHARS :=
    set c: char | 'a' <= c <= 'z' || 'A' <= c <= 'Z' || '0' <= c <= '9' || c == '-' || c == '_'

  /** `match[1]`: the first captured group, empty when there is none. */
  function FirstGroup(m: Match): string {
    if |m.groups| > 0 then m.groups[0] else ""
  }

  function ExtractOption(option: string, cls: set<char>, command: string): Option<string> {
    match Search(OptionPattern(option, cls), command)
    case Some(m) => Some(FirstGroup(m))
    case None => None
  }

  function ExtractRemotingAuthToken(command: string): Option<string> {
    ExtractOption(TOKEN_OPTION, TOKEN_CHARS, command)
  }

  function ExtractAppPort(command: string): Option<string> {
    ExtractOption(PORT_OPTION, Decimal.DIGITS, command)
  }

  lemma ExtractOptionIsScan(option: string, cls: set<char>, command: string)
    ensures ExtractOption(option, cls, command) == Scan(option, cls, command)
  {
    SearchIsScan(option, cls, command);
  }

  /** A value the pattern captures whole: non-empty, and of its characters only. */
  predicate Fits(cls: set<char>, value: string) {
    value != "" && forall i | 0 <= i < |value| :: value[i] in cls
  }

  /** The part of a value that the pattern captures: up to the first character it does not know. */
  function Kept(cls: set<char>, value: string): (r: string)
    ensures r <= value
    ensures r == value != "" <==> Fits(cls, value)
  {
    value[..RunLength(cls, value)]
  }

  /** What is captured is a non-empty string of the class. */
  lemma {:induction false} ScannedValueFits(needle: string, cls: set<char>, s: string)
    ensures var v := Scan(needle, cls, s); v.Some? ==> Fits(cls, v.value)
  {
    if ValueAt(needle, cls, s).None? && s != "" {
      ScannedValueFits(needle, cls, s[1..]);
    }
  }

  lemma AppPortIsPositiveInteger(command: string)
    ensures var v := ExtractAppPort(command); v.Some? ==> Decimal.IsPositiveInteger(v.value)
  {
    ExtractOptionIsScan(PORT_OPTION, Decimal.DIGITS, command);
    ScannedValueFits(PORT_OPTION, Decimal.DIGITS, command);
  }

  // ---------- joining arguments ----------

  /** The text of `/proc/<pid>/cmdline`: every argument followed by the separator. */
  function Join(args: seq<string>, sep: char): string {
    if |args| == 0 then "" else args[0] + [sep] + Join(args[1..], sep)
  }

  /** The first argument that yields a value on its own. */
  function FirstArgumentValue(needle: string, cls: set<char>, args: seq<string>, sep: char): Option<string> {
    if |args| == 0 then None
    else
      match Scan(needle, cls, args[0] + [sep])
      case Some(v) => Some(v)
      case None => FirstArgumentValue(needle, cls, args[1..], sep)
  }

  lemma RunStopsAtSeparator(cls: set<char>, a: string, sep: char, rest: string)
    requires sep !in cls
    ensures RunLength(cls, a + [sep] + rest) == RunLength(cls, a + [sep]) <= |a|
  {
    var u := a + [sep];
    var k := RunLength(cls, u);
    var t := u + rest;
    assert u[|a|] == sep;
    assert forall i | 0 <= i < |u| :: t[i] == u[i];
    RunLengthIs(cls, t, k);
  }

  lemma PrefixEndsBeforeSeparator(needle: string, a: string, sep: char, rest: string)
    requires sep !in needle
    ensures needle <= a + [sep] + rest <==> needle <= a
  {
    var t := a + [sep] + rest;
    assert a <= t && t[|a|] == sep;
  }

  /** No occurrence reaches across the separator. */
  lemma ValueAtStopsAtSeparator(needle: string, cls: set<char>, a: string, sep: char, rest: string)
    requires sep !in needle && sep !in cls
    ensures ValueAt(needle, cls, a + [sep] + rest) == ValueAt(needle, cls, a + [sep])
  {
    var t := a + [sep] + rest;
    var u := a + [sep];
    assert u <= t;
    if needle <= t {
      PrefixEndsBeforeSeparator(needle, a, sep, rest);
      var b := a[|needle|..];
      assert needle <= u;
      assert t[|needle|..] == b + [sep] + rest && u[|needle|..] == b + [sep];
      RunStopsAtSeparator(cls, b, sep, rest);
      var k := RunLength(cls, b + [sep]);
      assert (b + [sep] + rest)[..k] == (b + [sep])[..k];
    }
  }

  lemma {:induction false} ScanSplitsAtSeparator(needle: string, cls: set<char>, a: string, sep: char, rest: string)
    requires needle != "" && sep !in needle && sep !in cls
    ensures Scan(needle, cls, a + [sep] + rest) ==
            match Scan(needle, cls, a + [sep])
            case Some(v) => Some(v)
            case None => Scan(needle, cls, rest)
  {
    ValueAtStopsAtSeparator(needle, cls, a, sep, rest);
    var t := a + [sep] + rest;
    if a == "" {
      assert t[1..] == rest && (a + [sep])[1..] == "" && a + [sep] == [sep];
      assert needle[0] in needle;
      assert Scan(needle, cls, "").None?;
    } else {
      assert t[1..] == a[1..] + [sep] + rest;
      assert (a + [sep])[1..] == a[1..] + [sep];
      ScanSplitsAtSeparator(needle, cls, a[1..], sep, rest);
    }
  }

  /** Scanning the joined text is scanning the arguments one by one: nothing straddles two of them. */
  lemma {:induction false} ScanOfJoin(needle: string, cls: set<char>, args: seq<string>, sep: char)
    requires needle != "" && sep !in needle && sep !in cls
    ensures Scan(needle, cls, Join(args, sep)) == FirstArgumentValue(needle, cls, args, sep)
  {
    if |args| > 0 {
      ScanSplitsAtSeparator(needle, cls, args[0], sep, Join(args[1..], sep));
      ScanOfJoin(needle, cls, args[1..], sep);
    }
  }

  lemma {:induction false} NoNeedleNoValue(needle: string, cls: set<char>, a: string, sep: char)
    requires needle != "" && sep !in needle && !Contains(a, needle)
    ensures Scan(needle, cls, a + [sep]).None?
  {
    var u := a + [sep];
    assert !(needle <= u) by {
      PrefixEndsBeforeSeparator(needle, a, sep, "");
      assert u + "" == u;
      assert !OccursAt(needle, a, 0);
    }
    if a == "" {
      assert u[1..] == "";
    } else {
      assert u[1..] == a[1..] + [sep];
      forall i | 0 <= i <= |a[1..]|
        ensures !OccursAt(needle, a[1..], i)
      {
        assert OccursAt(needle, a[1..], i) ==> a[1..][i..i + |needle|] == a[i + 1..i + 1 + |needle|];
        assert !OccursAt(needle, a, i + 1);
      }
      NoNeedleNoValue(needle, cls, a[1..], sep);
    }
  }

  lemma OptionArgumentYieldsItsValue(needle: string, cls: set<char>, value: string, sep: char)
    requires sep !in cls && Kept(cls, value) != ""
    ensures Scan(needle, cls, needle + value + [sep]) == Some(Kept(cls, value))
  {
    var s := needle + value + [sep];
    var t := value + [sep];
    var k := RunLength(cls, value);
    assert s[|needle|..] == t;
    assert forall i | 0 <= i < |value| :: t[i] == value[i];
    assert t[|value|] == sep;
    RunLengthIs(cls, t, k);
    assert t[..k] == value[..k];
  }

  /**
   Extraction inverts joining: the first argument that mentions the option decides. What follows the
   option comes back exactly when it is a non-empty text of the class; a text that only begins so is cut
   at the first other character, whatever the later arguments are.
   */
  lemma ExtractionInvertsJoin(
    needle: string, cls: set<char>, args: seq<string>, sep: char, k: nat, value: string)
    requires needle != "" && sep !in needle && sep !in cls
    requires k < |args| && args[k] == needle + value
    requires forall j | 0 <= j < k :: !Contains(args[j], needle)
    ensures ExtractOption(needle, cls, Join(args, sep)) == Some(value) <==> Fits(cls, value)
    ensures Kept(cls, value) != "" ==> ExtractOption(needle, cls, Join(args, sep)) == Some(Kept(cls, value))
  {
    ExtractOptionIsScan(needle, cls, Join(args, sep));
    ScannedValueFits(needle, cls, Join(args, sep));
    ScanOfJoin(needle, cls, args, sep);
    if Kept(cls, value) != "" {
      FirstOptionDecides(needle, cls, args, sep, k, value);
    }
  }

  lemma {:induction false} FirstOptionDecides(
    needle: string, cls: set<char>, args: seq<string>, sep: char, k: nat, value: string)
    requires needle != "" && sep !in needle && sep !in cls
    requires Kept(cls, value) != ""
    requires k < |args| && args[k] == needle + value
    requires forall j | 0 <= j < k :: !Contains(args[j], needle)
    ensures FirstArgumentValue(needle, cls, args, sep) == Some(Kept(cls, value))
  {
    if k == 0 {
      OptionArgumentYieldsItsValue(needle, cls, value, sep);
    } else {
      NoNeedleNoValue(needle, cls, args[0], sep);
      FirstOptionDecides(needle, cls, args[1..], sep, k - 1, value);
    }
  }

  lemma KeptStopsAt(cls: set<char>, front: string, c: char, tail: string)
    requires c !in cls && forall i | 0 <= i < |front| :: front[i] in cls
    ensures Kept(cls, front + [c] + tail) == front
  {
    RunLengthIs(cls, front + [c] + tail, |front|);
  }

  /** The documentation calls the token base64. A base64 text with a '+' in it is cut there, silently. */
  lemma Base64TokenIsCut(args: seq<string>, sep: char, k: nat, token: string)
    requires sep !in TOKEN_OPTION && sep !in TOKEN_CHARS
    requires token == "ab+cd" && k < |args| && args[k] == TOKEN_OPTION + token
    requires forall j | 0 <= j < k :: !Contains(args[j], TOKEN_OPTION)
    ensures ExtractRemotingAuthToken(Join(args, sep)) == Some("ab")
  {
    assert token == "ab" + ['+'] + "cd";
    KeptStopsAt(TOKEN_CHARS, "ab", '+', "cd");
    ExtractionInvertsJoin(TOKEN_OPTION, TOKEN_CHARS, args, sep, k, token);
  }

  /** The other port option on the same command line is never taken for `--app-port=`. */
  lemma RiotClientPortIsNotAppPort(value: string)
    requires '=' !in value
    ensures !Contains(RIOT_PORT_OPTION + value, PORT_OPTION)
  {
    var s := RIOT_PORT_OPTION + value;
    assert forall j | 22 <= j < |s| :: s[j] == value[j - 22];
    forall i | 0 <= i <= |s|
      ensures !OccursAt(PORT_OPTION, s, i)
    {
      if i + 11 <= |s| {
        var window := s[i..i + 11];
        assert window[0] == s[i] && window[10] == s[i + 10];
        assert window[0] != '-' || window[10] != '=';
      }
    }
  }
}
