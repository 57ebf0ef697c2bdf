/**
 A reader for JSON arrays of integers and strings, with every string escape (sections 5 to 7 of
 RFC 8259), and what it makes of arrays written without and with escapes.
 */
module JsonArrays {
  import opened Outcomes
  import opened Decimal
  import Strings

  // ---------- the reader ----------

  datatype Scalar = Number(number: int) | Text(text: string)

  function SkipSpace(s: string): (r: string)
    ensures |r| <= |s|
    ensures r != "" ==> r[0] !in {' ', '\t', '\n', '\r'}
  {
    if s != "" && s[0] in {' ', '\t', '\n', '\r'} then SkipSpace(s[1..]) else s
  }

  function HexValue(c: char): Option<nat> {
    if '0' <= c <= '9' then Some(c as nat - 48)
    else if 'a' <= c <= 'f' then Some(c as nat - 87)
    else if 'A' <= c <= 'F' then Some(c as nat - 55)
    else None
  }

  function HexNumber(s: string): Option<nat> {
    if s == "" then Some(0)
    else
      match (HexNumber(s[..|s| - 1]), HexValue(s[|s| - 1]))
      case (Some(high), Some(low)) => Some(high * 16 + low)
      case _ => None
  }

  /** The UTF-8 bytes of a 16-bit code unit, each unit on its own. */
  function Utf8(code: nat): (s: string)
    ensures 1 <= |s| <= 3
  {
    if code < 0x80 then [code as char]
    else if code < 0x800 then [(0xC0 + code / 0x40 % 0x20) as char, (0x80 + code % 0x40) as char]
    else [(0xE0 + code / 0x1000 % 0x10) as char, (0x80 + code / 0x40 % 0x40) as char, (0x80 + code % 0x40) as char]
  }

  /** What a one-letter escape stands for. */
  function Unescaped(c: char): Option<char> {
    if c == '"' || c == '\\' || c == '/' then Some(c)
    else if c == 'b' then Some('\U{8}')
    else if c == 'f' then Some('\U{C}')
    else if c == 'n' then Some('\n')
    else if c == 'r' then Some('\r')
    else if c == 't' then Some('\t')
    else None
  }

  /** An escape after its backslash: the characters it stands for and what follows it. */
  function ParseEscape(s: string): (r: Option<(string, string)>)
    ensures r.Some? ==> |r.value.0| <= |s| - |r.value.1| && |r.value.1| < |s|
  {
    if s == "" then None
    else if Unescaped(s[0]).Some? then Some(([Unescaped(s[0]).value], s[1..]))
    else if s[0] == 'u' && |s| >= 5 && HexNumber(s[1..5]).Some? then
      Some((Utf8(HexNumber(s[1..5]).value), s[5..]))
    else None
  }

  /** A string after its opening quote: its value and what follows its closing quote. */
  function ParseText(s: string): (r: Option<(string, string)>)
    ensures r.Some? ==> |r.value.1| < |s|
    decreases |s|
  {
    if s == "" || s[0] < ' ' then None
    else if s[0] == '"' then Some(("", s[1..]))
    else if s[0] == '\\' then
      match ParseEscape(s[1..])
      case None => None
      case Some((d, rest)) => Prefixed(d, ParseText(rest))
    else Prefixed([s[0]], ParseText(s[1..]))
  }

  function Prefixed(d: string, r: Option<(string, string)>): Option<(string, string)> {
    match r
    case None => None
    case Some((v, rest)) => Some((d + v, rest))
  }

  function ParseDigits(s: string): Option<(nat, string)> {
    var k := Strings.RunLength(DIGITS, s);
    if k == 0 || (k > 1 && s[0] == '0') then None else Some((Value(s[..k]), s[k..]))
  }

  function ParseScalar(s: string): (r: Option<(Scalar, string)>)
    ensures r.Some? ==> |r.value.1| < |s|
  {
    if s == "" then None
    else if s[0] == '"' then
      match ParseText(s[1..])
      case None => None
      case Some((v, rest)) => Some((Text(v), rest))
    else if s[0] == '-' then
      match ParseDigits(s[1..])
      case None => None
      case Some((n, rest)) => Some((Number(0 - n), rest))
    else
      match ParseDigits(s)
      case None => None
      case Some((n, rest)) => Some((Number(n), rest))
  }

  /** One or more items and the closing bracket. */
  function ParseItems(s: string): Option<(seq<Scalar>, string)>
    decreases |s|
  {
    match ParseScalar(SkipSpace(s))
    case None => None
    case Some((v, rest)) =>
      var t := SkipSpace(rest);
      if t == "" then None
      else if t[0] == ']' then Some(([v], t[1..]))
      else if t[0] == ',' then
        match ParseItems(t[1..])
        case None => None
        case Some((vs, u)) => Some(([v] + vs, u))
      else None
  }

  /** A whole text that is one array. */
  function Parse(s: string): Option<seq<Scalar>> {
    var t := SkipSpace(s);
    if t == "" || t[0] != '[' then None
    else
      var u := SkipSpace(t[1..]);
      if u != "" && u[0] == ']' then (if SkipSpace(u[1..]) == "" then Some([]) else None)
      else
        match ParseItems(u)
        case None => None
        case Some((items, rest)) => if SkipSpace(rest) == "" then Some(items) else None
  }

  // ---------- strings that need no escape ----------

  /** No quote, no backslash, no control character. */
  predicate Plain(s: string) {
    forall i | 0 <= i < |s| :: s[i] != '"' && s[i] != '\\' && ' ' <= s[i]
  }

  predicate AllPlain(texts: seq<string>) {
    forall i | 0 <= i < |texts| :: Plain(texts[i])
  }

  lemma {:induction false} PlainTextIsRead(s: string, tail: string)
    requires Plain(s)
    ensures ParseText(s + "\"" + tail) == Some((s, tail))
  {
    var t := s + "\"" + tail;
    if s == "" {
      assert t[1..] == tail;
    } else {
      assert t[1..] == s[1..] + "\"" + tail;
      PlainTextIsRead(s[1..], tail);
      assert [s[0]] + s[1..] == s;
    }
  }

  /**
   What reading can make of the characters before the first quote: either it is shorter than they
   are, or it contains a quote before their end, or they are plain and read as they stand.
   */
  ghost predicate ReadBefore(t: string, r: nat, v: string, rest: string)
    requires r < |t|
  {
    || |v| < r
    || (exists q | 0 <= q < |v| && q < r :: v[q] == '"')
    || (v == t[..r] && Plain(v) && rest == t[r + 1..])
  }

  lemma {:induction false} ReadingUpToFirstQuote(t: string, r: nat)
    requires r < |t| && t[r] == '"' && forall i | 0 <= i < r :: t[i] != '"'
    requires ParseText(t).Some?
    ensures ReadBefore(t, r, ParseText(t).value.0, ParseText(t).value.1)
    decreases r
  {
    if t[0] == '"' {
      assert t[..0] == "";
    } else if t[0] == '\\' {
      var (d, after) := ParseEscape(t[1..]).value;
      if r == 1 {
        assert ParseText(t).value.0[0] == '"';
      } else {
        EscapeBeforeQuote(t, r);
        var k := |t| - |after|;
        ReadingUpToFirstQuote(after, r - k);
        var (w, rest) := ParseText(after).value;
        ReadAfterEscape(t, r, k, d, w, rest);
      }
    } else {
      ReadingUpToFirstQuote(t[1..], r - 1);
      var (w, rest) := ParseText(t[1..]).value;
      ReadAfterChar(t, r, w, rest);
    }
  }

  lemma ReadAfterEscape(t: string, r: nat, k: nat, d: string, w: string, rest: string)
    requires |d| < k <= r < |t|
    requires ReadBefore(t[k..], r - k, w, rest)
    ensures ReadBefore(t, r, d + w, rest)
  {
    if q :| 0 <= q < |w| && q < r - k && w[q] == '"' {
      assert (d + w)[|d| + q] == '"';
    }
  }

  lemma ReadAfterChar(t: string, r: nat, w: string, rest: string)
    requires 0 < r < |t| && t[0] != '"' && t[0] != '\\' && ' ' <= t[0]
    requires ReadBefore(t[1..], r - 1, w, rest)
    ensures ReadBefore(t, r, [t[0]] + w, rest)
  {
    if q :| 0 <= q < |w| && q < r - 1 && w[q] == '"' {
      assert ([t[0]] + w)[1 + q] == '"';
    } else if w == t[1..][..r - 1] {
      assert [t[0]] + w == t[..r];
      assert t[1..][r..] == t[r + 1..];
    }
  }

  lemma HexHasNoQuote(s: string, i: nat)
    requires i < |s| && s[i] == '"'
    ensures HexNumber(s).None?
    decreases |s|
  {
    if i < |s| - 1 {
      HexHasNoQuote(s[..|s| - 1], i);
    }
  }

  /** An escape other than an escaped quote ends before the first quote and reads shorter than it is. */
  lemma EscapeBeforeQuote(t: string, r: nat)
    requires 1 < r < |t| && t[r] == '"' && forall i | 0 <= i < r :: t[i] != '"'
    requires ParseEscape(t[1..]).Some?
    ensures var (d, after) := ParseEscape(t[1..]).value;
            var k := |t| - |after|;
            |d| < k <= r && after == t[k..]
  {
    var s := t[1..];
    if Unescaped(s[0]).None? && r < 6 {
      assert s[1..5][r - 2] == '"';
      HexHasNoQuote(s[1..5], r - 2);
    }
  }

  lemma {:induction false} FirstQuote(t: string) returns (r: nat)
    requires exists i | 0 <= i < |t| :: t[i] == '"'
    ensures r < |t| && t[r] == '"' && forall i | 0 <= i < r :: t[i] != '"'
  {
    if t[0] == '"' {
      r := 0;
    } else {
      var i :| 0 <= i < |t| && t[i] == '"';
      assert t[1..][i - 1] == '"';
      r := FirstQuote(t[1..]);
      r := r + 1;
    }
  }

  /** Between quotes, a string reads as itself exactly when it is plain. */
  lemma TextReadsAsItself(s: string, tail: string)
    ensures (forall i | 0 <= i < |s| :: s[i] != '"' && s[i] != '\\' && ' ' <= s[i]) <==>
            (ParseText(s + "\"" + tail).Some? && ParseText(s + "\"" + tail).value.0 == s)
    ensures Plain(s) ==> ParseText(s + "\"" + tail) == Some((s, tail))
  {
    var t := s + "\"" + tail;
    if Plain(s) {
      PlainTextIsRead(s, tail);
    } else if ParseText(t).Some? && ParseText(t).value.0 == s {
      assert t[|s|] == '"';
      var r := FirstQuote(t);
      assert r <= |s|;
      ReadingUpToFirstQuote(t, r);
      assert forall q | 0 <= q < r :: s[q] == t[q];
      assert false;
    }
  }

  // ---------- arrays of a number and strings ----------

  /** The common shape of the texts: `[n, "a", "b"]`. */
  function Render(n: nat, texts: seq<string>): string {
    "[" + (Print(n) + Closing(texts))
  }

  /** What follows an item: the strings still to come, and the bracket. */
  function Closing(texts: seq<string>): string {
    if |texts| == 0 then "]" else ", \"" + (texts[0] + "\"" + Closing(texts[1..]))
  }

  function TextItems(texts: seq<string>): seq<Scalar> {
    seq(|texts|, i requires 0 <= i < |texts| => Text(texts[i]))
  }

  /** Between quotes, `raw` reads as `text`. */
  ghost predicate ReadsTo(raw: string, text: string) {
    forall rest :: ParseText(raw + "\"" + rest) == Some((text, rest))
  }

  ghost predicate AllReadTo(raws: seq<string>, texts: seq<string>) {
    |raws| == |texts| && forall i | 0 <= i < |raws| :: ReadsTo(raws[i], texts[i])
  }

  /** The items that follow a comma, as the reader meets them. */
  function ItemsText(raws: seq<string>): string
    requires |raws| > 0
  {
    " \"" + (raws[0] + "\"" + Closing(raws[1..]))
  }

  lemma StripComma(s: string)
    ensures (", \"" + s)[0] == ',' && (", \"" + s)[1..] == " \"" + s
  {
  }

  lemma ClosingIsItemsText(raws: seq<string>)
    requires |raws| > 0
    ensures Closing(raws)[0] == ',' && Closing(raws)[1..] == ItemsText(raws)
  {
    StripComma(raws[0] + "\"" + Closing(raws[1..]));
  }

  /** The reader's step over the first of several strings. */
  lemma FirstItem(raws: seq<string>)
    requires |raws| > 0
    ensures var raw := raws[0] + "\"" + Closing(raws[1..]);
            SkipSpace(ItemsText(raws)) == ['"'] + raw
            && ParseScalar(['"'] + raw) ==
               match ParseText(raw)
               case None => None
               case Some((v, rest)) => Some((Text(v), rest))
  {
    var raw := raws[0] + "\"" + Closing(raws[1..]);
    var t := ItemsText(raws);
    assert t == [' '] + (['"'] + raw);
    assert t[1..] == ['"'] + raw;
    assert (['"'] + raw)[1..] == raw;
  }

  /** What the reader does once the first of several strings has been read as `text`. */
  lemma NextItem(raws: seq<string>, text: string)
    requires |raws| > 0
    requires ParseText(raws[0] + "\"" + Closing(raws[1..])) == Some((text, Closing(raws[1..])))
    ensures ParseItems(ItemsText(raws)) ==
            if |raws| == 1 then Some(([Text(text)], ""))
            else match ParseItems(ItemsText(raws[1..]))
                 case None => None
                 case Some((vs, u)) => Some(([Text(text)] + vs, u))
  {
    FirstItem(raws);
    var after := Closing(raws[1..]);
    assert SkipSpace(after) == after;
    if |raws| == 1 {
      assert after[1..] == "";
    } else {
      ClosingIsItemsText(raws[1..]);
    }
  }

  lemma {:induction false} ItemsAreRead(raws: seq<string>, texts: seq<string>)
    requires |raws| > 0 && AllReadTo(raws, texts)
    ensures ParseItems(ItemsText(raws)) == Some((TextItems(texts), ""))
  {
    assert ReadsTo(raws[0], texts[0]);
    NextItem(raws, texts[0]);
    if |raws| == 1 {
      assert TextItems(texts) == [Text(texts[0])];
    } else {
      ItemsAreRead(raws[1..], texts[1..]);
      TextItemsCons(texts);
    }
  }

  /** Strings that are not all plain are not read as they stand. */
  lemma {:induction false} OnlyPlainItemsAreRead(texts: seq<string>)
    requires |texts| > 0 && !AllPlain(texts)
    ensures var r := ParseItems(ItemsText(texts)); r.Some? ==> r.value.0 != TextItems(texts)
  {
    var s := texts[0];
    TextReadsAsItself(s, Closing(texts[1..]));
    if Plain(s) {
      NextItem(texts, s);
      assert |texts| > 1 && !AllPlain(texts[1..]);
      OnlyPlainItemsAreRead(texts[1..]);
      TextItemsCons(texts);
      if ParseItems(ItemsText(texts[1..])).Some? {
        ConsItems(Text(s), ParseItems(ItemsText(texts[1..])).value.0);
      }
    } else {
      FirstItemDiffers(texts);
    }
  }

  lemma FirstItemDiffers(texts: seq<string>)
    requires |texts| > 0
    requires var r := ParseText(texts[0] + "\"" + Closing(texts[1..])); r.Some? ==> r.value.0 != texts[0]
    ensures var r := ParseItems(ItemsText(texts)); r.Some? ==> r.value.0 != TextItems(texts)
  {
    FirstItem(texts);
    assert TextItems(texts)[0] == Text(texts[0]);
  }

  lemma TextItemsCons(texts: seq<string>)
    requires |texts| > 0
    ensures TextItems(texts) == [Text(texts[0])] + TextItems(texts[1..])
    ensures TextItems(texts)[1..] == TextItems(texts[1..])
  {
  }

  lemma {:induction false} DigitsAreDigits(s: string)
    requires AllDigits(s)
    ensures forall i | 0 <= i < |s| :: s[i] in DIGITS
  {
    forall i | 0 <= i < |s|
      ensures s[i] in DIGITS
    {
      assert IsDigit(s[i]);
    }
  }

  lemma PrintedNumberIsRead(n: nat, after: string)
    requires after != "" && after[0] !in DIGITS
    ensures ParseScalar(Print(n) + after) == Some((Number(n), after))
  {
    var p := Print(n);
    var t := p + after;
    DigitsAreDigits(p);
    Strings.RunLengthIs(DIGITS, t, |p|);
    assert t[..|p|] == p && t[|p|..] == after;
    ValueOfPrint(n);
    PrintHasNoLeadingZero(n);
    assert IsDigit(t[0]) && t[0] == p[0];
  }

  lemma ArrayTextIsItems(u: string)
    requires u != "" && u[0] in DIGITS
    ensures Parse("[" + u) ==
            match ParseItems(u)
            case None => None
            case Some((items, rest)) => if SkipSpace(rest) == "" then Some(items) else None
  {
    assert ("[" + u)[1..] == u;
    assert SkipSpace(u) == u;
  }

  lemma NumberStartsText(n: nat, rest: string)
    ensures var u := Print(n) + rest;
            u != "" && u[0] in DIGITS && SkipSpace(u) == u
  {
    DigitsAreDigits(Print(n));
    assert (Print(n) + rest)[0] == Print(n)[0];
  }

  lemma ConsItems(x: Scalar, xs: seq<Scalar>)
    ensures ([x] + xs)[1..] == xs
  {
  }

  lemma ItemsAfterNumber(n: nat, after: string)
    requires after != "" && (after[0] == ',' || after[0] == ']')
    ensures ParseItems(Print(n) + after) ==
            if after[0] == ']' then Some(([Number(n)], after[1..]))
            else match ParseItems(after[1..])
                 case None => None
                 case Some((vs, u)) => Some(([Number(n)] + vs, u))
  {
    PrintedNumberIsRead(n, after);
    NumberStartsText(n, after);
    assert SkipSpace(after) == after;
  }

  /** Reading the number leaves the strings to be read. */
  lemma RenderReadsAfterNumber(n: nat, raws: seq<string>)
    ensures Parse(Render(n, raws)) ==
            if |raws| == 0 then Some([Number(n)])
            else match ParseItems(ItemsText(raws))
                 case None => None
                 case Some((vs, rest)) => if SkipSpace(rest) == "" then Some([Number(n)] + vs) else None
  {
    var after := Closing(raws);
    NumberStartsText(n, after);
    ArrayTextIsItems(Print(n) + after);
    if |raws| > 0 {
      ClosingIsItemsText(raws);
    }
    ItemsAfterNumber(n, after);
  }

  lemma RenderIsRead(n: nat, raws: seq<string>, texts: seq<string>)
    requires AllReadTo(raws, texts)
    ensures Parse(Render(n, raws)) == Some([Number(n)] + TextItems(texts))
  {
    RenderReadsAfterNumber(n, raws);
    if |raws| == 0 {
      assert [Number(n)] + TextItems(texts) == [Number(n)];
    } else {
      ItemsAreRead(raws, texts);
    }
  }

  lemma PlainReadsToItself(texts: seq<string>)
    requires AllPlain(texts)
    ensures AllReadTo(texts, texts)
  {
    forall i, rest | 0 <= i < |texts|
      ensures ParseText(texts[i] + "\"" + rest) == Some((texts[i], rest))
    {
      PlainTextIsRead(texts[i], rest);
    }
  }

  /**
   An array of a number and strings written without escapes reads back, as a whole, to that number
   and those strings exactly when every string is plain.
   */
  lemma RenderRoundTrip(n: nat, texts: seq<string>)
    ensures Parse(Render(n, texts)) == Some([Number(n)] + TextItems(texts)) <==> AllPlain(texts)
    ensures Parse(Render(n, texts)).Some? ==>
              |Parse(Render(n, texts)).value| > 0 && Parse(Render(n, texts)).value[0] == Number(n)
  {
    RenderReadsAfterNumber(n, texts);
    if AllPlain(texts) {
      PlainReadsToItself(texts);
      RenderIsRead(n, texts, texts);
    } else {
      OnlyPlainItemsAreRead(texts);
      ConsItems(Number(n), TextItems(texts));
      if ParseItems(ItemsText(texts)).Some? {
        ConsItems(Number(n), ParseItems(ItemsText(texts)).value.0);
      }
    }
  }

  lemma RenderOfOne(n: nat, text: string)
    ensures Parse("[" + Print(n) + ", \"" + text + "\"" + "]") == Some([Number(n), Text(text)]) <==> Plain(text)
  {
    var texts := [text];
    assert Closing(texts[1..]) == "]";
    assert Render(n, texts) == "[" + Print(n) + ", \"" + text + "\"" + "]";
    assert [Number(n)] + TextItems(texts) == [Number(n), Text(text)];
    assert texts[0] == text;
    RenderRoundTrip(n, texts);
  }

  // ---------- strings that are escaped ----------

  function HexDigit(n: nat): char
    requires n < 16
  {
    if n < 10 then (n + 48) as char else (n + 87) as char
  }

  /** A character as section 7 of RFC 8259 wants it inside a string. */
  function EscapedChar(c: char): string {
    if c == '"' || c == '\\' then ['\\', c]
    else if c == '\U{8}' then "\\b"
    else if c == '\U{C}' then "\\f"
    else if c == '\n' then "\\n"
    else if c == '\r' then "\\r"
    else if c == '\t' then "\\t"
    else if c < ' ' then "\\u00" + [HexDigit(c as nat / 16), HexDigit(c as nat % 16)]
    else [c]
  }

  function Escaped(s: string): string {
    if s == "" then "" else EscapedChar(s[0]) + Escaped(s[1..])
  }

  function AllEscaped(texts: seq<string>): (r: seq<string>)
    ensures |r| == |texts| && forall i | 0 <= i < |texts| :: r[i] == Escaped(texts[i])
  {
    if |texts| == 0 then [] else [Escaped(texts[0])] + AllEscaped(texts[1..])
  }

  lemma HexOfControl(c: char)
    requires c < ' '
    ensures HexNumber("00" + [HexDigit(c as nat / 16), HexDigit(c as nat % 16)]) == Some(c as nat)
  {
    var high, low := HexDigit(c as nat / 16), HexDigit(c as nat % 16);
    var s := "00" + [high, low];
    assert s[..3] == "00" + [high];
    assert s[..3][..2] == "00";
    assert "00"[..1] == "0";
    assert "0"[..0] == "";
    assert HexNumber("0") == Some(0);
    assert HexNumber("00") == Some(0);
    assert HexValue(high) == Some(c as nat / 16) && HexValue(low) == Some(c as nat % 16);
    assert HexNumber(s[..3]) == Some(c as nat / 16);
  }

  /** Reading over an escape. */
  lemma EscapeIsRead(t: string, c: char, rest: string)
    requires t != "" && t[0] == '\\' && ParseEscape(t[1..]) == Some(([c], rest))
    ensures ParseText(t) == Prefixed([c], ParseText(rest))
  {
  }

  lemma EscapedCharIsRead(c: char, rest: string)
    ensures ParseText(EscapedChar(c) + rest) == Prefixed([c], ParseText(rest))
  {
    var e := EscapedChar(c);
    var t := e + rest;
    if |e| == 1 {
      assert t[1..] == rest;
    } else {
      assert t[1..] == e[1..] + rest;
      if |e| == 2 {
        assert (e[1..] + rest)[1..] == rest;
      } else {
        ControlEscapeIsRead(c, rest);
      }
      EscapeIsRead(t, c, rest);
    }
  }

  lemma ControlEscapeIsRead(c: char, rest: string)
    requires c < ' ' && |EscapedChar(c)| > 2
    ensures ParseEscape(EscapedChar(c)[1..] + rest) == Some(([c], rest))
  {
    var digits := "00" + [HexDigit(c as nat / 16), HexDigit(c as nat % 16)];
    var s := EscapedChar(c)[1..] + rest;
    assert EscapedChar(c)[1..] == ['u'] + digits;
    assert s[1..5] == digits && s[5..] == rest;
    HexOfControl(c);
  }

  lemma {:induction false} EscapedTextIsRead(s: string, rest: string)
    ensures ParseText(Escaped(s) + "\"" + rest) == Some((s, rest))
  {
    if s == "" {
      assert Escaped(s) + "\"" + rest == ['"'] + rest;
    } else {
      var later := Escaped(s[1..]) + "\"" + rest;
      assert Escaped(s) + "\"" + rest == EscapedChar(s[0]) + later;
      EscapedCharIsRead(s[0], later);
      EscapedTextIsRead(s[1..], rest);
      assert [s[0]] + s[1..] == s;
    }
  }

  // ---------- the end of a text ----------

  /** What is left over ends as the text does. */
  predicate SameEnd(rest: string, s: string) {
    rest != "" ==> s != "" && rest[|rest| - 1] == s[|s| - 1]
  }

  predicate IsSpace(c: char) {
    c in {' ', '\t', '\n', '\r'}
  }

  lemma {:induction false} SkipSpaceKeepsEnd(s: string)
    ensures SameEnd(SkipSpace(s), s)
    ensures s != "" && !IsSpace(s[|s| - 1]) ==> SkipSpace(s) != ""
  {
    if s != "" && IsSpace(s[0]) {
      SkipSpaceKeepsEnd(s[1..]);
    }
  }

  lemma {:induction false} ParseTextKeepsEnd(s: string)
    ensures var r := ParseText(s); r.Some? ==> SameEnd(r.value.1, s)
    decreases |s|
  {
    if ParseText(s).Some? && s[0] != '"' {
      if s[0] == '\\' {
        ParseTextKeepsEnd(ParseEscape(s[1..]).value.1);
      } else {
        ParseTextKeepsEnd(s[1..]);
      }
    }
  }

  lemma ParseScalarKeepsEnd(s: string)
    ensures var r := ParseScalar(s); r.Some? ==> SameEnd(r.value.1, s)
  {
    if s != "" && s[0] == '"' {
      ParseTextKeepsEnd(s[1..]);
    }
  }

  /** The items of an array stop at its bracket. */
  lemma {:induction false} ParseItemsStopsAtBracket(s: string)
    ensures var r := ParseItems(s);
            r.Some? ==> s != "" && SameEnd(r.value.1, s) && (r.value.1 == "" ==> s[|s| - 1] == ']')
    decreases |s|
  {
    var u := SkipSpace(s);
    SkipSpaceKeepsEnd(s);
    if ParseScalar(u).Some? {
      ParseScalarKeepsEnd(u);
      var rest := ParseScalar(u).value.1;
      SkipSpaceKeepsEnd(rest);
      var t := SkipSpace(rest);
      if t != "" && t[0] == ',' {
        ParseItemsStopsAtBracket(t[1..]);
      }
    }
  }

  /** A text that reads as an array ends with its bracket, but for white space. */
  lemma ArrayEndsWithBracket(s: string)
    requires s != "" && !IsSpace(s[|s| - 1]) && s[|s| - 1] != ']'
    ensures Parse(s).None?
  {
    var t := SkipSpace(s);
    SkipSpaceKeepsEnd(s);
    if t[0] == '[' {
      var u := SkipSpace(t[1..]);
      SkipSpaceKeepsEnd(t[1..]);
      if u != "" && u[0] == ']' {
        SkipSpaceKeepsEnd(u[1..]);
      } else if ParseItems(u).Some? {
        ParseItemsStopsAtBracket(u);
        SkipSpaceKeepsEnd(ParseItems(u).value.1);
      }
    }
  }
}
