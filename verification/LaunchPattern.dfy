/**
 Regular-expression search as the launch-command extractors use it, and the one-pass scanner it
 amounts to. A pattern is a sequence of single-character tests and captured greedy runs; matching is
 given by the list of all its successes in the order a backtracking engine tries them.
 */
module LaunchPattern {
  import opened Outcomes
  import opened Strings

  datatype Item =
    | Is(c: char)                    // a literal character
    | NotIn(cls: set<char>)          // [^...]
    | CapturedRun(cls: set<char>)    // ([...]+), greedy

  datatype Match = Match(groups: seq<string>, length: nat)

  /** Extends every match by `n` characters in front of it. */
  function Skipping(n: nat, ms: seq<Match>): seq<Match> {
    seq(|ms|, i requires 0 <= i < |ms| => Match(ms[i].groups, n + ms[i].length))
  }

  /** Puts a captured text in front of every match. */
  function Capturing(text: string, ms: seq<Match>): seq<Match> {
    seq(|ms|, i requires 0 <= i < |ms| => Match([text] + ms[i].groups, |text| + ms[i].length))
  }

  /** Every way `p` matches a prefix of `s`, in the order backtracking finds them. */
  function Matches(p: seq<Item>, s: string): seq<Match>
    decreases |p|, 0
  {
    if |p| == 0 then
      [Match([], 0)]
    else
      match p[0]
      case Is(c) =>
        if s != "" && s[0] == c then Skipping(1, Matches(p[1..], s[1..])) else []
      case NotIn(cls) =>
        if s != "" && s[0] !in cls then Skipping(1, Matches(p[1..], s[1..])) else []
      case CapturedRun(cls) =>
        RunMatches(p[1..], s, RunLength(cls, s))
  }

  /** A greedy run takes `k` characters first and gives them back one at a time. */
  function RunMatches(rest: seq<Item>, s: string, k: nat): seq<Match>
    requires k <= |s|
    decreases |rest|, k + 1
  {
    if k == 0 then []
    else Capturing(s[..k], Matches(rest, s[k..])) + RunMatches(rest, s, k - 1)
  }

  /** `std::regex_search`: the leftmost position that matches, and the first match tried there. */
  function Search(p: seq<Item>, s: string): Option<Match> {
    var ms := Matches(p, s);
    if |ms| > 0 then Some(ms[0])
    else if s == "" then None
    else Search(p, s[1..])
  }

  function Literal(needle: string): seq<Item> {
    seq(|needle|, i requires 0 <= i < |needle| => Is(needle[i]))
  }

  /** The shape of both patterns: `needle([cls]+)[^cls]`. */
  function OptionPattern(needle: string, cls: set<char>): seq<Item> {
    Literal(needle) + [CapturedRun(cls), NotIn(cls)]
  }

  /** The value at the very start of `s`: the needle, a non-empty maximal run, one further character. */
  function ValueAt(needle: string, cls: set<char>, s: string): Option<string> {
    if needle <= s then
      var t := s[|needle|..];
      var k := RunLength(cls, t);
      if 0 < k < |t| then Some(t[..k]) else None
    else
      None
  }

  /** The one-pass scanner: no backtracking, positions tried from left to right. */
  function Scan(needle: string, cls: set<char>, s: string): Option<string> {
    if ValueAt(needle, cls, s).Some? then ValueAt(needle, cls, s)
    else if s == "" then None
    else Scan(needle, cls, s[1..])
  }

  // ---------- the scanner finds the first usable occurrence ----------

  /** `r` is the value at the first position that has one, or none if no position has. */
  ghost predicate IsFirstValue(needle: string, cls: set<char>, s: string, r: Option<string>) {
    match r
    case None => forall i | 0 <= i <= |s| :: ValueAt(needle, cls, s[i..]).None?
    case Some(_) =>
      exists i | 0 <= i <= |s| ::
        && ValueAt(needle, cls, s[i..]) == r
        && forall j | 0 <= j < i :: ValueAt(needle, cls, s[j..]).None?
  }

  lemma {:induction false} ScanFindsFirst(needle: string, cls: set<char>, s: string)
    ensures IsFirstValue(needle, cls, s, Scan(needle, cls, s))
  {
    assert s[0..] == s;
    if ValueAt(needle, cls, s).None? && s != "" {
      ScanFindsFirst(needle, cls, s[1..]);
      forall i | 0 < i <= |s|
        ensures s[1..][i - 1..] == s[i..]
      {
      }
      var r := Scan(needle, cls, s);
      if r.Some? {
        var i :| 0 <= i <= |s[1..]|
                 && ValueAt(needle, cls, s[1..][i..]) == r
                 && forall j | 0 <= j < i :: ValueAt(needle, cls, s[1..][j..]).None?;
        assert s[1..][i..] == s[i + 1..];
        assert ValueAt(needle, cls, s[i + 1..]) == r;
        forall j | 0 <= j < i + 1
          ensures ValueAt(needle, cls, s[j..]).None?
        {
          if j > 0 {
            assert ValueAt(needle, cls, s[1..][j - 1..]).None?;
          }
        }
      } else {
        forall i | 0 <= i <= |s|
          ensures ValueAt(needle, cls, s[i..]).None?
        {
          if i > 0 {
            assert ValueAt(needle, cls, s[1..][i - 1..]).None?;
          }
        }
      }
    }
  }

  // ---------- backtracking search equals the scanner ----------

  lemma {:induction false} MatchesOfLiteral(needle: string, tail: seq<Item>, s: string)
    ensures Matches(Literal(needle) + tail, s) ==
            if needle <= s then Skipping(|needle|, Matches(tail, s[|needle|..])) else []
  {
    var p := Literal(needle) + tail;
    if needle == "" {
      assert p == tail && s[0..] == s;
    } else {
      assert p[1..] == Literal(needle[1..]) + tail;
      assert p[0] == Is(needle[0]);
      if s != "" && s[0] == needle[0] {
        MatchesOfLiteral(needle[1..], tail, s[1..]);
        assert needle <= s <==> needle[1..] <= s[1..] by {
          assert needle == [needle[0]] + needle[1..] && s == [s[0]] + s[1..];
        }
        if needle <= s {
          assert s[1..][|needle| - 1..] == s[|needle|..];
        }
      }
    }
  }

  /** Giving characters back never helps: what follows would again be a character of the class. */
  lemma {:induction false} ShorterRunsFail(cls: set<char>, s: string, k: nat)
    requires k < |s| && forall i | 0 <= i <= k :: s[i] in cls
    ensures RunMatches([NotIn(cls)], s, k) == []
  {
    if k > 0 {
      ShorterRunsFail(cls, s, k - 1);
      assert s[k..][0] in cls;
    }
  }

  lemma MatchesOfTerminator(cls: set<char>, s: string)
    ensures Matches([NotIn(cls)], s) == if s != "" && s[0] !in cls then [Match([], 1)] else []
  {
    assert [NotIn(cls)][1..] == [];
    if s != "" && s[0] !in cls {
      assert Matches([NotIn(cls)][1..], s[1..]) == [Match([], 0)];
    }
  }

  lemma LongestRunOnly(cls: set<char>, s: string, k: nat)
    requires k == RunLength(cls, s)
    ensures RunMatches([NotIn(cls)], s, k) == if 0 < k < |s| then [Match([s[..k]], k + 1)] else []
  {
    if k > 0 {
      ShorterRunsFail(cls, s, k - 1);
      MatchesOfTerminator(cls, s[k..]);
      assert RunMatches([NotIn(cls)], s, k) == Capturing(s[..k], Matches([NotIn(cls)], s[k..])) + [];
      assert [s[..k]] + [] == [s[..k]];
    }
  }

  lemma MatchesOfRun(cls: set<char>, s: string)
    ensures Matches([CapturedRun(cls), NotIn(cls)], s) ==
            RunMatches([NotIn(cls)], s, RunLength(cls, s))
  {
    assert [CapturedRun(cls), NotIn(cls)][1..] == [NotIn(cls)];
  }

  lemma {:induction false} SearchIsScan(needle: string, cls: set<char>, s: string)
    ensures Search(OptionPattern(needle, cls), s) ==
            match Scan(needle, cls, s)
            case None => None
            case Some(v) => Some(Match([v], |needle| + |v| + 1))
  {
    MatchesOfLiteral(needle, [CapturedRun(cls), NotIn(cls)], s);
    if needle <= s {
      MatchesOfRun(cls, s[|needle|..]);
      LongestRunOnly(cls, s[|needle|..], RunLength(cls, s[|needle|..]));
    }
    if ValueAt(needle, cls, s).None? && s != "" {
      SearchIsScan(needle, cls, s[1..]);
    }
  }
}
