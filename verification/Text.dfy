/** Text primitives the configuration code relies on: trimming, splitting into
    lines and at the first '=', decimal numbers. */
module Text {
  import opened Domain

  /** Unicode White_Space, as `str::trim` uses it. */
  predicate IsWhitespace(c: char) {
    || '\U{9}' <= c <= '\U{D}' || c == ' ' || c == '\U{85}' || c == '\U{A0}' || c == '\U{1680}'
    || '\U{2000}' <= c <= '\U{200A}' || c == '\U{2028}' || c == '\U{2029}' || c == '\U{202F}'
    || c == '\U{205F}' || c == '\U{3000}'
  }

  function TrimStart(s: string): string {
    if s != "" && IsWhitespace(s[0]) then TrimStart(s[1..]) else s
  }

  function TrimEnd(s: string): string {
    if s != "" && IsWhitespace(s[|s| - 1]) then TrimEnd(s[..|s| - 1]) else s
  }

  function Trim(s: string): string {
    TrimEnd(TrimStart(s))
  }

  /** No whitespace at either end. */
  predicate Trimmed(s: string) {
    s != "" ==> !IsWhitespace(s[0]) && !IsWhitespace(s[|s| - 1])
  }

  lemma {:induction false} TrimEndTrims(s: string)
    requires s != "" ==> !IsWhitespace(s[0])
    ensures Trimmed(TrimEnd(s)) && (s != "" ==> TrimEnd(s) != "" && TrimEnd(s)[0] == s[0])
    ensures TrimEnd(s) <= s
  {
    if s != "" && IsWhitespace(s[|s| - 1]) {
      TrimEndTrims(s[..|s| - 1]);
    }
  }

  lemma {:induction false} TrimStartTrims(s: string)
    ensures TrimStart(s) != "" ==> !IsWhitespace(TrimStart(s)[0])
    ensures |TrimStart(s)| <= |s| && s[|s| - |TrimStart(s)|..] == TrimStart(s)
  {
    if s != "" && IsWhitespace(s[0]) {
      TrimStartTrims(s[1..]);
    }
  }

  lemma TrimTrims(s: string)
    ensures Trimmed(Trim(s))
    ensures Trimmed(s) ==> Trim(s) == s
    ensures Trim(Trim(s)) == Trim(s)
    ensures forall c :: c in Trim(s) ==> c in s
  {
    TrimStartTrims(s);
    TrimEndTrims(TrimStart(s));
    var t := Trim(s);
    if t != "" {
      assert TrimStart(t) == t && TrimEnd(t) == t;
    }
  }

  predicate AllWhitespace(s: string) {
    forall i :: 0 <= i < |s| ==> IsWhitespace(s[i])
  }

  lemma {:induction false} TrimStartDrops(s: string) returns (before: string)
    ensures s == before + TrimStart(s) && AllWhitespace(before)
  {
    before := "";
    if s != "" && IsWhitespace(s[0]) {
      before := TrimStartDrops(s[1..]);
      before := [s[0]] + before;
    }
  }

  lemma {:induction false} TrimEndDrops(s: string) returns (after: string)
    ensures s == TrimEnd(s) + after && AllWhitespace(after)
  {
    after := "";
    if s != "" && IsWhitespace(s[|s| - 1]) {
      after := TrimEndDrops(s[..|s| - 1]);
      after := after + [s[|s| - 1]];
    }
  }

  /** Trimming drops whitespace at the ends and nothing else. */
  lemma TrimDropsEnds(s: string) returns (before: string, after: string)
    ensures s == before + Trim(s) + after && AllWhitespace(before) && AllWhitespace(after)
  {
    before := TrimStartDrops(s);
    after := TrimEndDrops(TrimStart(s));
    assert before + (Trim(s) + after) == before + Trim(s) + after;
  }

  function ToAsciiLower(s: string): (r: string)
    ensures |r| == |s|
  {
    seq(|s|, i requires 0 <= i < |s| =>
      if 'A' <= s[i] <= 'Z' then (s[i] as int - 'A' as int + 'a' as int) as char else s[i])
  }

  lemma LowerTwice(s: string)
    ensures ToAsciiLower(ToAsciiLower(s)) == ToAsciiLower(s)
  {
  }

  lemma LowerTrimmed(s: string)
    requires Trimmed(s)
    ensures Trimmed(ToAsciiLower(s))
  {
  }

  predicate OneLine(s: string) {
    '\n' !in s
  }

  function IndexOf(s: string, c: char): (i: nat)
    ensures i <= |s|
    ensures i < |s| ==> s[i] == c
    ensures forall j :: 0 <= j < i ==> s[j] != c
  {
    if s == "" || s[0] == c then 0 else 1 + IndexOf(s[1..], c)
  }

  function StripCr(line: string): string {
    if line != "" && line[|line| - 1] == '\r' then line[..|line| - 1] else line
  }

  /** `str::lines`. */
  function Lines(s: string): seq<string>
    decreases |s|
  {
    if s == "" then []
    else
      var i := IndexOf(s, '\n');
      if i == |s| then [s] else [StripCr(s[..i])] + Lines(s[i + 1..])
  }

  /** Every line followed by a line break. */
  function Terminated(lines: seq<string>): string {
    if lines == [] then "" else lines[0] + "\n" + Terminated(lines[1..])
  }

  function Join(lines: seq<string>): string {
    if lines == [] then ""
    else if |lines| == 1 then lines[0]
    else lines[0] + "\n" + Join(lines[1..])
  }

  lemma {:induction false} JoinTerminated(lines: seq<string>)
    requires lines != []
    ensures Join(lines) + "\n" == Terminated(lines)
  {
    if |lines| > 1 {
      JoinTerminated(lines[1..]);
    } else {
      assert lines[1..] == [];
    }
  }

  lemma LineThen(line: string, rest: string)
    requires OneLine(line)
    ensures Lines(line + "\n" + rest) == [StripCr(line)] + Lines(rest)
  {
    var text := line + "\n" + rest;
    var i := |line|;
    assert text[i] == '\n' && text[..i] == line && text[i + 1..] == rest;
    assert forall j :: 0 <= j < i ==> text[j] == line[j];
    assert IndexOf(text, '\n') == i;
  }

  lemma FirstLine(line: string, rest: string)
    requires OneLine(line) && StripCr(line) == line
    ensures Lines(line + "\n" + rest) == [line] + Lines(rest)
  {
    LineThen(line, rest);
  }

  /** A carriage return before the line break belongs to the line's end. */
  lemma FirstLineCr(line: string, rest: string)
    requires OneLine(line)
    ensures Lines(line + "\r" + "\n" + rest) == [line] + Lines(rest)
  {
    LineThen(line + "\r", rest);
    assert (line + "\r")[..|line|] == line;
  }

  /** The last line needs no line break. */
  lemma LastLineOpen(line: string)
    requires OneLine(line) && line != ""
    ensures Lines(line) == [line]
  {
  }

  predicate PlainLine(line: string) {
    OneLine(line) && StripCr(line) == line
  }

  lemma {:induction false} LinesOfTerminated(lines: seq<string>)
    requires forall i :: 0 <= i < |lines| ==> PlainLine(lines[i])
    ensures Lines(Terminated(lines)) == lines
  {
    if lines != [] {
      LinesOfTerminated(lines[1..]);
      FirstLine(lines[0], Terminated(lines[1..]));
      assert lines == [lines[0]] + lines[1..];
    }
  }

  lemma {:induction false} LinesAreLines(s: string)
    ensures forall l :: l in Lines(s) ==> OneLine(l)
    decreases |s|
  {
    if s != "" {
      var i := IndexOf(s, '\n');
      if i < |s| {
        LinesAreLines(s[i + 1..]);
      }
    }
  }

  /** `split_once('=')`. */
  function SplitOnce(line: string): Option<(string, string)> {
    var i := IndexOf(line, '=');
    if i == |line| then None else Some((line[..i], line[i + 1..]))
  }

  lemma SplitEntry(key: string, value: string)
    requires '=' !in key
    ensures SplitOnce(key + "=" + value) == Some((key, value))
  {
    var line := key + "=" + value;
    assert line[|key|] == '=';
    assert forall j :: 0 <= j < |key| ==> line[j] == key[j];
    assert IndexOf(line, '=') == |key|;
    assert line[..|key|] == key && line[|key| + 1..] == value;
  }

  // Decimal numbers

  predicate IsDigit(c: char) {
    '0' <= c <= '9'
  }

  function DigitValue(c: char): nat
    requires IsDigit(c)
  {
    c as int - '0' as int
  }

  function DigitChar(d: nat): (c: char)
    requires d < 10
    ensures IsDigit(c) && DigitValue(c) == d
  {
    (d + '0' as int) as char
  }

  /** The value of a string of digits, `None` for any other string. */
  function Digits(s: string): Option<nat> {
    if s == "" then Some(0)
    else if !IsDigit(s[|s| - 1]) then None
    else
      match Digits(s[..|s| - 1])
      case Some(n) => Some(10 * n + DigitValue(s[|s| - 1]))
      case None => None
  }

  /** `str::parse` into an unsigned integer of the given maximum. */
  function ParseUnsigned(s: string, max: nat): (n: Option<nat>)
    ensures n.Some? ==> n.value <= max
  {
    var digits := if s != "" && s[0] == '+' then s[1..] else s;
    if digits == "" then None
    else
      match Digits(digits)
      case Some(n) => if n <= max then Some(n) else None
      case None => None
  }

  predicate AllDigits(s: string) {
    forall i :: 0 <= i < |s| ==> '0' <= s[i] <= '9'
  }

  lemma {:induction false} DigitsAccepts(s: string)
    ensures Digits(s).Some? <==> AllDigits(s)
  {
    if s != "" {
      DigitsAccepts(s[..|s| - 1]);
    }
  }

  /** A number is a non-empty string of digits after an optional plus sign, of
      at most the maximum's value. */
  lemma NumbersAccepted(s: string, max: nat)
    ensures var digits := if s != "" && s[0] == '+' then s[1..] else s;
      && (ParseUnsigned(s, max).Some? <==> digits != "" && AllDigits(digits) && Digits(digits).GetOr(max + 1) <= max)
      && (ParseUnsigned(s, max).Some? ==> ParseUnsigned(s, max) == Digits(digits))
  {
    DigitsAccepts(if s != "" && s[0] == '+' then s[1..] else s);
  }

  /** Every digit counts ten times what the next one does. */
  lemma DigitsPlace(s: string, d: char)
    requires AllDigits(s) && '0' <= d <= '9'
    ensures Digits("") == Some(0) && Digits(s).Some?
    ensures Digits(s + [d]) == Some(10 * Digits(s).value + (d as int - '0' as int))
  {
    DigitsAccepts(s);
    assert (s + [d])[..|s|] == s;
  }

  function PrintNat(n: nat): (s: string)
    ensures s != ""
  {
    if n < 10 then [DigitChar(n)] else PrintNat(n / 10) + [DigitChar(n % 10)]
  }

  lemma {:induction false} PrintNatDigits(n: nat)
    ensures Digits(PrintNat(n)) == Some(n)
    ensures forall c :: c in PrintNat(n) ==> IsDigit(c)
  {
    if n < 10 {
      assert PrintNat(n)[..0] == "";
    } else {
      PrintNatDigits(n / 10);
      assert PrintNat(n)[..|PrintNat(n)| - 1] == PrintNat(n / 10);
    }
  }

  lemma PrintNatParses(n: nat, max: nat)
    requires n <= max
    ensures ParseUnsigned(PrintNat(n), max) == Some(n)
    ensures Trimmed(PrintNat(n)) && OneLine(PrintNat(n))
  {
    PrintNatDigits(n);
    var s := PrintNat(n);
    assert s[0] in s && s[|s| - 1] in s;
  }

  // Hexadecimal digits

  predicate IsHex(c: char) {
    '0' <= c <= '9' || 'a' <= c <= 'f' || 'A' <= c <= 'F'
  }

  function HexDigit(c: char): (d: nat)
    requires IsHex(c)
    ensures d < 16
  {
    if '0' <= c <= '9' then c as int - '0' as int
    else if 'a' <= c <= 'f' then c as int - 'a' as int + 10
    else c as int - 'A' as int + 10
  }

  function HexLower(d: nat): (c: char)
    requires d < 16
    ensures IsHex(c) && HexDigit(c) == d
  {
    if d < 10 then (d + '0' as int) as char else (d - 10 + 'a' as int) as char
  }
}
