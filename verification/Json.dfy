/** JSON arrays of strings as the configuration stores them: the serializer's
    output and the parser that reads any such array (RFC 8259, sections 5 and 7). */
module Json {
  import opened Domain
  import opened Text

  // ---------------------------------------------------------------------
  // Writing
  // ---------------------------------------------------------------------

  function EscapeChar(c: char): string {
    if c == '"' then "\\\""
    else if c == '\\' then "\\\\"
    else if c == '\U{8}' then "\\b"
    else if c == '\U{C}' then "\\f"
    else if c == '\n' then "\\n"
    else if c == '\r' then "\\r"
    else if c == '\t' then "\\t"
    else if c < ' ' then "\\u00" + [HexLower(c as int / 16), HexLower(c as int % 16)]
    else [c]
  }

  function Escape(s: string): string {
    if s == "" then "" else EscapeChar(s[0]) + Escape(s[1..])
  }

  function Quoted(s: string): string {
    "\"" + Escape(s) + "\""
  }

  /** The items from the second on, each after its comma. */
  function Following(items: seq<string>): string {
    if items == [] then "" else "," + Quoted(items[0]) + Following(items[1..])
  }

  function WriteArray(items: seq<string>): string {
    "[" + (if items == [] then "" else Quoted(items[0]) + Following(items[1..])) + "]"
  }

  // ---------------------------------------------------------------------
  // Reading
  // ---------------------------------------------------------------------

  predicate IsSpace(c: char) {
    c == ' ' || c == '\n' || c == '\t' || c == '\r'
  }

  function SkipSpace(s: string): (r: string)
    ensures |r| <= |s|
  {
    if s != "" && IsSpace(s[0]) then SkipSpace(s[1..]) else s
  }

  /** The blank characters of RFC 8259, section 2. */
  predicate IsBlank(c: char) {
    c == '\U{20}' || c == '\U{9}' || c == '\U{A}' || c == '\U{D}'
  }

  /** Exactly the leading blanks are skipped. */
  lemma {:induction false} SkipsLeadingBlanks(s: string)
    ensures s[|s| - |SkipSpace(s)|..] == SkipSpace(s)
    ensures forall i :: 0 <= i < |s| - |SkipSpace(s)| ==> IsBlank(s[i])
    ensures SkipSpace(s) != "" ==> !IsBlank(SkipSpace(s)[0])
  {
    if s != "" && IsSpace(s[0]) {
      SkipsLeadingBlanks(s[1..]);
    }
  }

  /** The code unit spelled by four hexadecimal digits. */
  function Hex4(s: string): (v: Option<nat>)
    ensures v.Some? ==> |s| >= 4 && v.value < 0x10000
  {
    if |s| >= 4 && IsHex(s[0]) && IsHex(s[1]) && IsHex(s[2]) && IsHex(s[3])
    then Some(((HexDigit(s[0]) * 16 + HexDigit(s[1])) * 16 + HexDigit(s[2])) * 16 + HexDigit(s[3])) else None
  }

  datatype Unescaped = Unescaped(c: char, rest: string)

  /** A `\u` escape; a leading surrogate needs its trailing one. */
  function UnescapeUnicode(s: string): (r: Option<Unescaped>)
    ensures r.Some? ==> |r.value.rest| < |s|
  {
    match Hex4(s)
    case None => None
    case Some(u) =>
      if u < 0xD800 || 0xE000 <= u then Some(Unescaped(u as char, s[4..]))
      else if u < 0xDC00 && |s| >= 6 && s[4] == '\\' && s[5] == 'u' then
        match Hex4(s[6..])
        case None => None
        case Some(v) =>
          if 0xDC00 <= v < 0xE000 then Some(Unescaped((0x10000 + (u - 0xD800) * 0x400 + (v - 0xDC00)) as char, s[10..]))
          else None
      else None
  }

  /** What follows a backslash. */
  function Unescape(s: string): (r: Option<Unescaped>)
    ensures r.Some? ==> |r.value.rest| < |s|
  {
    if s == "" then None
    else if s[0] == '"' || s[0] == '\\' || s[0] == '/' then Some(Unescaped(s[0], s[1..]))
    else if s[0] == 'b' then Some(Unescaped('\U{8}', s[1..]))
    else if s[0] == 'f' then Some(Unescaped('\U{C}', s[1..]))
    else if s[0] == 'n' then Some(Unescaped('\n', s[1..]))
    else if s[0] == 'r' then Some(Unescaped('\r', s[1..]))
    else if s[0] == 't' then Some(Unescaped('\t', s[1..]))
    else if s[0] == 'u' then UnescapeUnicode(s[1..])
    else None
  }

  /** The escapes of RFC 8259, section 7, and no others. */
  lemma StandardEscapes(c: char, rest: string)
    ensures var s := [c] + rest;
      && (c in "\"\\/" ==> Unescape(s) == Some(Unescaped(c, rest)))
      && (c == 'b' ==> Unescape(s) == Some(Unescaped('\U{8}', rest)))
      && (c == 'f' ==> Unescape(s) == Some(Unescaped('\U{C}', rest)))
      && (c == 'n' ==> Unescape(s) == Some(Unescaped('\n', rest)))
      && (c == 'r' ==> Unescape(s) == Some(Unescaped('\r', rest)))
      && (c == 't' ==> Unescape(s) == Some(Unescaped('\t', rest)))
      && (c !in "\"\\/bfnrtu" ==> Unescape(s) == None)
  {
    assert ([c] + rest)[1..] == rest;
  }

  datatype ReadString = ReadString(text: string, rest: string)

  /** The string whose opening quote has been read. */
  function ReadQuoted(s: string): (r: Option<ReadString>)
    ensures r.Some? ==> |r.value.rest| < |s|
    decreases |s|
  {
    if s == "" || s[0] < ' ' then None
    else if s[0] == '"' then Some(ReadString("", s[1..]))
    else
      var next := if s[0] == '\\' then Unescape(s[1..]) else Some(Unescaped(s[0], s[1..]));
      if next.None? then None
      else
        match ReadQuoted(next.value.rest)
        case None => None
        case Some(more) => Some(ReadString([next.value.c] + more.text, more.rest))
  }

  datatype ReadItems = ReadItems(items: seq<string>, rest: string)

  /** The items up to the closing bracket. */
  function ReadElements(s: string, first: bool): Option<ReadItems>
    decreases |s|
  {
    var at := SkipSpace(s);
    if at == "" then None
    else if at[0] == ']' then Some(ReadItems([], at[1..]))
    else if !first && at[0] != ',' then None
    else
      var item := if first then at else SkipSpace(at[1..]);
      if item == "" || item[0] != '"' then None
      else
        match ReadQuoted(item[1..])
        case None => None
        case Some(one) =>
          match ReadElements(one.rest, false)
          case None => None
          case Some(more) => Some(ReadItems([one.text] + more.items, more.rest))
  }

  function ReadArray(s: string): Option<seq<string>> {
    var at := SkipSpace(s);
    if at == "" || at[0] != '[' then None
    else
      match ReadElements(at[1..], true)
      case None => None
      case Some(all) => if SkipSpace(all.rest) == "" then Some(all.items) else None
  }

  // ---------------------------------------------------------------------
  // Reading back what was written
  // ---------------------------------------------------------------------

  lemma ReadEscaped(c: char, rest: string)
    ensures ReadQuoted(EscapeChar(c) + rest)
         == match ReadQuoted(rest)
            case None => None
            case Some(more) => Some(ReadString([c] + more.text, more.rest))
  {
    var s := EscapeChar(c) + rest;
    if c == '"' || c == '\\' || c == '\U{8}' || c == '\U{C}' || c == '\n' || c == '\r' || c == '\t' {
      assert s[2..] == rest && s[1..][1..] == rest;
    } else if c < ' ' {
      var u := s[2..];
      assert s[1..][1..] == u;
      assert u[0] == '0' && u[1] == '0' && u[2] == HexLower(c as int / 16) && u[3] == HexLower(c as int % 16);
      assert u[4..] == rest;
      assert Hex4(u) == Some(c as int);
    } else {
      assert s[1..] == rest;
    }
  }

  lemma Assoc(a: string, b: string, c: string)
    ensures a + b + c == a + (b + c)
  {
  }

  /** The rest of a written string, from inside its quotes, and what follows. */
  function StringThen(text: string, rest: string): string {
    Escape(text) + ("\"" + rest)
  }

  lemma StringThenOneMore(c: char, text: string, rest: string)
    ensures StringThen([c] + text, rest) == EscapeChar(c) + StringThen(text, rest)
  {
    assert ([c] + text)[1..] == text;
    Assoc(EscapeChar(c), Escape(text), "\"" + rest);
  }

  lemma QuotedThen(text: string, rest: string)
    ensures Quoted(text) + rest == "\"" + StringThen(text, rest)
  {
    Assoc("\"", Escape(text), "\"");
    Assoc("\"", Escape(text) + "\"", rest);
    Assoc(Escape(text), "\"", rest);
  }

  lemma {:induction false} ReadWrittenString(text: string, rest: string)
    ensures ReadQuoted(StringThen(text, rest)) == Some(ReadString(text, rest))
  {
    if text == "" {
      assert StringThen(text, rest) == "\"" + rest;
    } else {
      ReadWrittenString(text[1..], rest);
      assert [text[0]] + text[1..] == text;
      StringThenOneMore(text[0], text[1..], rest);
      ReadEscaped(text[0], StringThen(text[1..], rest));
    }
  }

  function Before(item: string, more: Option<ReadItems>): Option<ReadItems> {
    match more
    case None => None
    case Some(m) => Some(ReadItems([item] + m.items, m.rest))
  }

  /** One step of reading: an item, after a comma unless it is the first. */
  lemma ReadOneItem(at: string, first: bool, inner: string, text: string, tail: string)
    requires ReadQuoted(inner) == Some(ReadString(text, tail))
    requires at == (if first then "" else ",") + ("\"" + inner)
    ensures ReadElements(at, first) == Before(text, ReadElements(tail, false))
  {
    var item := "\"" + inner;
    assert item[1..] == inner && SkipSpace(item) == item;
    if first {
      assert at == item;
    } else {
      assert at[1..] == item && SkipSpace(at) == at;
    }
  }

  lemma ReadWrittenItem(item: string, tail: string, first: bool)
    ensures ReadElements((if first then "" else ",") + (Quoted(item) + tail), first) == Before(item, ReadElements(tail, false))
  {
    QuotedThen(item, tail);
    ReadWrittenString(item, tail);
    ReadOneItem((if first then "" else ",") + (Quoted(item) + tail), first, StringThen(item, tail), item, tail);
  }

  lemma FollowingThen(item: string, items: seq<string>, rest: string)
    ensures Following([item] + items) + rest == "," + (Quoted(item) + (Following(items) + rest))
  {
    assert ([item] + items)[1..] == items;
    Assoc(",", Quoted(item), Following(items));
    Assoc(",", Quoted(item) + Following(items), rest);
    Assoc(Quoted(item), Following(items), rest);
  }

  lemma ReadEnd(first: bool)
    ensures ReadElements("]", first) == Some(ReadItems([], ""))
  {
    var s := "]";
    assert SkipSpace(s) == s && s[1..] == "";
  }

  lemma {:induction false} ReadWrittenItems(items: seq<string>)
    ensures ReadElements(Following(items) + "]", false) == Some(ReadItems(items, ""))
  {
    if items == [] {
      assert Following(items) + "]" == "]";
      ReadEnd(false);
    } else {
      assert [items[0]] + items[1..] == items;
      FollowingThen(items[0], items[1..], "]");
      ReadWrittenItem(items[0], Following(items[1..]) + "]", false);
      ReadWrittenItems(items[1..]);
    }
  }

  /** What follows the opening bracket. */
  function ArrayRest(items: seq<string>): string {
    (if items == [] then "" else Quoted(items[0]) + Following(items[1..])) + "]"
  }

  lemma ReadArrayRest(items: seq<string>)
    ensures ReadElements(ArrayRest(items), true) == Some(ReadItems(items, ""))
  {
    if items == [] {
      assert ArrayRest(items) == "]";
      ReadEnd(true);
    } else {
      var tail := Following(items[1..]) + "]";
      Assoc(Quoted(items[0]), Following(items[1..]), "]");
      assert ArrayRest(items) == "" + (Quoted(items[0]) + tail);
      ReadWrittenItem(items[0], tail, true);
      ReadWrittenItems(items[1..]);
      assert [items[0]] + items[1..] == items;
    }
  }

  lemma BracketFirst(items: seq<string>)
    ensures var s := WriteArray(items);
            s != "" && s[0] == '[' && s[1..] == ArrayRest(items) && s[|s| - 1] == ']'
  {
    Assoc("[", if items == [] then "" else Quoted(items[0]) + Following(items[1..]), "]");
  }

  /** Any list of strings survives being written and read back. */
  lemma ReadWrittenArray(items: seq<string>)
    ensures ReadArray(WriteArray(items)) == Some(items)
  {
    BracketFirst(items);
    ReadArrayRest(items);
  }

  predicate Printable(s: string) {
    forall i :: 0 <= i < |s| ==> s[i] >= ' '
  }

  lemma {:induction false} EscapePrintable(s: string)
    ensures Printable(Escape(s))
  {
    if s != "" {
      EscapePrintable(s[1..]);
      EscapeCharPrintable(s[0]);
    }
  }

  lemma EscapeCharPrintable(c: char)
    ensures Printable(EscapeChar(c))
  {
  }

  lemma QuotedPrintable(s: string)
    ensures Printable(Quoted(s))
  {
    EscapePrintable(s);
  }

  lemma {:induction false} FollowingPrintable(items: seq<string>)
    ensures Printable(Following(items))
  {
    if items != [] {
      QuotedPrintable(items[0]);
      FollowingPrintable(items[1..]);
    }
  }

  /** The written array stays on one line, between its brackets. */
  lemma ArrayPrintable(items: seq<string>)
    ensures Printable(WriteArray(items)) && OneLine(WriteArray(items)) && Trimmed(WriteArray(items))
    ensures WriteArray(items) != "" && WriteArray(items)[0] == '['
  {
    BracketFirst(items);
    if items != [] {
      QuotedPrintable(items[0]);
      FollowingPrintable(items[1..]);
    }
  }
}
