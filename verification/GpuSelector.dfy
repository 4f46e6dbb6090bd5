/** The user's GPU selection as text (src/domain.rs). */
module Gpu {
  import opened Domain
  import opened Text

  const U32_MAX: nat := 0xFFFF_FFFF

  type U32 = n: nat | n <= U32_MAX

  datatype GpuSelector = Auto | Uuid(uuid: string) | PciBusId(bdf: string) | Index(index: U32)

  predicate StartsWith(s: string, prefix: string) {
    prefix <= s
  }

  predicate IsMigUuid(value: string) {
    StartsWith(value, "MIG-") && |value| > 4
  }

  function ParseU32(s: string): Option<U32> {
    match ParseUnsigned(s, U32_MAX)
    case Some(n) => Some(n)
    case None => None
  }

  function ParseSelector(raw: string): GpuSelector {
    var value := Trim(raw);
    if value == "" then Auto
    else if ParseU32(value).Some? then Index(ParseU32(value).value)
    else if StartsWith(value, "gpu-") then Uuid("GPU-" + value[4..])
    else if StartsWith(value, "mig-") then Uuid("MIG-" + value[4..])
    else if StartsWith(value, "GPU-") || IsMigUuid(value) then Uuid(value)
    else PciBusId(value)
  }

  /** Canonical text; `Auto` is the empty string. */
  function AsString(sel: GpuSelector): string {
    match sel
    case Auto => ""
    case Index(n) => PrintNat(n)
    case Uuid(u) => u
    case PciBusId(b) => b
  }

  function HexNumber(s: string): nat
    requires forall c :: c in s ==> IsHex(c)
  {
    if s == "" then 0 else 16 * HexNumber(s[..|s| - 1]) + HexDigit(s[|s| - 1])
  }

  /** Four lower-case hexadecimal digits. */
  function FourHex(n: nat): string
    requires n < 0x10000
  {
    [HexLower(n / 16 / 16 / 16), HexLower(n / 16 / 16 % 16), HexLower(n / 16 % 16), HexLower(n % 16)]
  }

  predicate AllHex(s: string) {
    forall i :: 0 <= i < |s| ==> IsHex(s[i])
  }

  /** The shape `dddddddd:bb:dd.f`. */
  predicate EightDigitBdf(s: string) {
    && |s| == 16 && s[8] == ':' && s[11] == ':' && s[14] == '.'
    && AllHex(s[..8]) && AllHex(s[9..11]) && AllHex(s[12..14]) && IsHex(s[15])
  }

  function NormalizePciBdf(value: string): string {
    var v := ToAsciiLower(value);
    if EightDigitBdf(v) && HexNumber(v[..8]) < 0x10000 then FourHex(HexNumber(v[..8])) + v[8..] else v
  }

  function SanitizedSelector(sel: GpuSelector): GpuSelector {
    match sel
    case Uuid(u) => if Trim(u) == "" then Auto else Uuid(Trim(u))
    case PciBusId(b) => if Trim(b) == "" then Auto else PciBusId(NormalizePciBdf(Trim(b)))
    case _ => sel
  }

  lemma NormalizeLower(value: string)
    ensures ToAsciiLower(NormalizePciBdf(value)) == NormalizePciBdf(value)
  {
    var v := ToAsciiLower(value);
    if EightDigitBdf(v) && HexNumber(v[..8]) < 0x10000 {
      var n := NormalizePciBdf(value);
      assert forall i :: 0 <= i < |n| ==> ToAsciiLower(n)[i] == n[i];
    }
  }

  /** Normalizing again changes nothing. */
  lemma NormalizeTwice(value: string)
    ensures NormalizePciBdf(NormalizePciBdf(value)) == NormalizePciBdf(value)
  {
    NormalizeLower(value);
    LowerTwice(value);
  }

  lemma NormalizeTrimmed(value: string)
    requires Trimmed(value) && value != ""
    ensures Trimmed(NormalizePciBdf(value)) && NormalizePciBdf(value) != ""
  {
    LowerTrimmed(value);
  }

  predicate SelectorSanitized(sel: GpuSelector) {
    match sel
    case Uuid(u) => Trimmed(u) && u != ""
    case PciBusId(b) => Trimmed(b) && b != "" && NormalizePciBdf(b) == b
    case _ => true
  }

  lemma SanitizedIsSanitized(sel: GpuSelector)
    ensures SelectorSanitized(SanitizedSelector(sel))
    ensures SelectorSanitized(sel) ==> SanitizedSelector(sel) == sel
  {
    match sel
    case Uuid(u) => TrimTrims(u);
    case PciBusId(b) =>
      TrimTrims(b);
      NormalizeTwice(Trim(b));
      if Trim(b) != "" {
        NormalizeTrimmed(Trim(b));
      }
    case _ =>
  }

  /** The selectors whose text reads back as themselves. */
  predicate Canonical(sel: GpuSelector) {
    match sel
    case Auto => true
    case Index(_) => true
    case Uuid(u) => OneLine(u) && (StartsWith(u, "GPU-") || IsMigUuid(u))
    case PciBusId(b) => OneLine(b) && ParseU32(b).None? && !StartsWith(b, "gpu-") && !StartsWith(b, "mig-")
  }

  lemma PrefixedIsNoNumber(s: string)
    requires s != "" && s[0] != '+' && !IsDigit(s[0])
    ensures ParseU32(s).None?
  {
    NonDigitHead(s);
  }

  lemma {:induction false} NonDigitHead(s: string)
    requires s != "" && !IsDigit(s[0])
    ensures Digits(s).None?
  {
    if |s| > 1 {
      NonDigitHead(s[..|s| - 1]);
    }
  }

  /** On one line, a sanitized selector reads back as itself exactly when it is
      canonical. */
  lemma SelectorReadsBack(sel: GpuSelector)
    requires SelectorSanitized(sel) && OneLine(AsString(sel)) && sel != Auto
    ensures SanitizedSelector(ParseSelector(AsString(sel))) == sel <==> Canonical(sel)
    ensures AsString(sel) != "" && Trim(AsString(sel)) == AsString(sel)
  {
    var text := AsString(sel);
    TrimTrims(text);
    SanitizedIsSanitized(sel);
    match sel
    case Index(n) =>
      PrintNatParses(n, U32_MAX);
    case Uuid(u) =>
      if StartsWith(u, "GPU-") || IsMigUuid(u) {
        PrefixedIsNoNumber(u);
      } else {
        UuidMisread(u);
      }
    case PciBusId(b) =>
      NormalizeLower(b);
      if Canonical(sel) {
        LowerHasNoUpper(b);
      }
  }

  lemma UuidMisread(u: string)
    requires Trimmed(u) && u != "" && !StartsWith(u, "GPU-") && !IsMigUuid(u)
    ensures SanitizedSelector(ParseSelector(u)) != Uuid(u)
  {
    TrimTrims(u);
    if ParseU32(u).None? && (StartsWith(u, "gpu-") || StartsWith(u, "mig-")) {
      var read := ParseSelector(u).uuid;
      assert read[0] != u[0];
      TrimStartTrims(read);
      TrimEndTrims(read);
      assert TrimStart(read) == read;
    }
  }

  lemma LowerHasNoUpper(b: string)
    requires ToAsciiLower(b) == b && b != ""
    ensures !StartsWith(b, "GPU-") && !StartsWith(b, "MIG-")
  {
    assert ToAsciiLower(b)[0] == b[0];
  }

  /** A PCI address as `parse_pci_bdf` accepts it. */
  predicate ValidBdf(s: string) {
    && |s| in {12, 16}
    && var d := |s| - 8;
       && AllHex(s[..d]) && s[d] == ':' && AllHex(s[d + 1..d + 3]) && s[d + 3] == ':'
       && AllHex(s[d + 4..d + 6]) && s[d + 6] == '.' && '0' <= s[d + 7] <= '7'
  }

  lemma BdfAt(s: string, i: nat)
    requires ValidBdf(s) && i < |s|
    ensures s[i] != '\n' && s[i] != '+' && s[i] != 'g' && s[i] != 'm' && s[i] != 'G' && s[i] != 'M'
  {
    var d := |s| - 8;
    if i < d {
      assert s[i] == s[..d][i];
    } else if d < i < d + 3 {
      assert s[i] == s[d + 1..d + 3][i - d - 1];
    } else if d + 3 < i < d + 6 {
      assert s[i] == s[d + 4..d + 6][i - d - 4];
    }
  }

  /** Every valid PCI address is canonical once sanitized. */
  lemma ValidBdfIsCanonical(s: string)
    requires ValidBdf(s) && Trimmed(s)
    ensures Canonical(SanitizedSelector(PciBusId(s)))
  {
    TrimTrims(s);
    forall i | 0 <= i < |s|
      ensures s[i] != '\n' && s[i] != '+' && s[i] != 'g' && s[i] != 'm' && s[i] != 'G' && s[i] != 'M'
    {
      BdfAt(s, i);
    }
    LowerOneLine(s);
    NormalizedLikeLower(s);
    ColonIsNoNumber(ToAsciiLower(s), |s| - 8);
  }

  lemma {:induction false} ColonIsNoNumber(s: string, i: nat)
    requires i < |s| && s[i] == ':' && s[0] != '+'
    ensures ParseU32(s).None?
  {
    NonDigitInside(s, i);
  }

  lemma {:induction false} NonDigitInside(s: string, i: nat)
    requires i < |s| && !IsDigit(s[i])
    ensures Digits(s).None?
  {
    if i < |s| - 1 {
      NonDigitInside(s[..|s| - 1], i);
    }
  }

  // ---------------------------------------------------------------------
  // What a user may type
  // ---------------------------------------------------------------------

  /** A vendor prefix in mixed case, or a bare MIG prefix. */
  predicate Misread(value: string) {
    var lower := ToAsciiLower(value);
    || (StartsWith(lower, "gpu-") && !StartsWith(value, "gpu-") && !StartsWith(value, "GPU-"))
    || (StartsWith(lower, "mig-") && (|value| == 4 || (!StartsWith(value, "mig-") && !StartsWith(value, "MIG-"))))
  }

  lemma {:induction false} DigitsLower(s: string)
    ensures Digits(ToAsciiLower(s)) == Digits(s)
  {
    if s != "" {
      var n := |s| - 1;
      DigitsLower(s[..n]);
      assert ToAsciiLower(s)[..n] == ToAsciiLower(s[..n]);
    }
  }

  lemma NumberLower(s: string)
    ensures ParseU32(ToAsciiLower(s)) == ParseU32(s)
  {
    DigitsLower(s);
    if s != "" {
      DigitsLower(s[1..]);
      assert ToAsciiLower(s)[1..] == ToAsciiLower(s[1..]);
    }
  }

  /** Collapsing a long domain changes neither prefix nor number. */
  lemma NormalizedLikeLower(value: string)
    ensures var b, v := NormalizePciBdf(value), ToAsciiLower(value);
      && (StartsWith(b, "gpu-") <==> StartsWith(v, "gpu-")) && (StartsWith(b, "mig-") <==> StartsWith(v, "mig-"))
      && (ParseU32(v).None? ==> ParseU32(b).None?)
      && (OneLine(v) ==> OneLine(b))
  {
    var b, v := NormalizePciBdf(value), ToAsciiLower(value);
    if b != v {
      assert v[..8][0] == v[0];
      assert IsHex(v[0]) && IsHex(b[0]);
      assert b[4] == ':' by {
        assert b[4] == v[8];
      }
      ColonIsNoNumber(b, 4);
    }
  }

  lemma LowerOneLine(s: string)
    requires OneLine(s)
    ensures OneLine(ToAsciiLower(s))
  {
    assert forall i :: 0 <= i < |s| ==> ToAsciiLower(s)[i] != '\n';
  }

  /** A prefix as written is one in lower case. */
  lemma PrefixLower(v: string)
    ensures StartsWith(v, "gpu-") || StartsWith(v, "GPU-") ==> StartsWith(ToAsciiLower(v), "gpu-")
    ensures StartsWith(v, "mig-") || StartsWith(v, "MIG-") ==> StartsWith(ToAsciiLower(v), "mig-")
  {
    var lower := ToAsciiLower(v);
    if StartsWith(v, "gpu-") || StartsWith(v, "GPU-") {
      assert lower[..4] == "gpu-";
    }
    if StartsWith(v, "mig-") || StartsWith(v, "MIG-") {
      assert lower[..4] == "mig-";
    }
  }

  lemma PciCanonical(v: string)
    requires Trimmed(v) && v != "" && OneLine(v) && ParseSelector(v) == PciBusId(v)
    ensures Canonical(SanitizedSelector(PciBusId(v))) <==> !StartsWith(ToAsciiLower(v), "gpu-") && !StartsWith(ToAsciiLower(v), "mig-")
  {
    TrimTrims(v);
    NumberLower(v);
    LowerOneLine(v);
    NormalizedLikeLower(v);
    NormalizeTrimmed(v);
  }

  lemma UuidCanonical(v: string)
    requires Trimmed(v) && v != "" && OneLine(v) && ParseSelector(v).Uuid?
    ensures Canonical(SanitizedSelector(ParseSelector(v))) <==> v != "mig-"
  {
    TrimTrims(v);
    var u := ParseSelector(v).uuid;
    assert Trimmed(u) && OneLine(u);
    TrimTrims(u);
  }

  /** Text typed on one line gives a canonical selector exactly when it is none of
      those prefixes. */
  lemma TypedIsCanonical(raw: string)
    requires OneLine(raw)
    ensures Canonical(SanitizedSelector(ParseSelector(raw))) <==> !Misread(Trim(raw))
  {
    TrimTrims(raw);
    var v := Trim(raw);
    assert ParseSelector(raw) == ParseSelector(v);
    PrefixLower(v);
    match ParseSelector(v)
    case Auto =>
    case Index(n) => NumberHasNoPrefix(v);
    case Uuid(_) => UuidCanonical(v);
    case PciBusId(_) => PciCanonical(v);
  }

  lemma NumberHasNoPrefix(v: string)
    requires ParseU32(v).Some?
    ensures !Misread(v)
  {
    var lower := ToAsciiLower(v);
    NumberLower(v);
    if StartsWith(lower, "gpu-") || StartsWith(lower, "mig-") {
      PrefixedIsNoNumber(lower);
    }
  }

  /** Parsing a trimmed text that cannot be a number. */
  lemma WordParses(s: string)
    requires Trimmed(s) && s != "" && s[0] != '+' && !IsDigit(s[0])
    ensures ParseSelector(s) ==
      if StartsWith(s, "gpu-") then Uuid("GPU-" + s[4..])
      else if StartsWith(s, "mig-") then Uuid("MIG-" + s[4..])
      else if StartsWith(s, "GPU-") || IsMigUuid(s) then Uuid(s)
      else PciBusId(s)
    ensures !EightDigitBdf(ToAsciiLower(s)) ==> SanitizedSelector(PciBusId(s)) == PciBusId(ToAsciiLower(s))
  {
    TrimTrims(s);
    PrefixedIsNoNumber(s);
  }

  /** A mixed-case prefix is kept as an address, and read back as an identity
      nobody typed. */
  lemma MixedCaseIsMisread()
    ensures ParseSelector("Gpu-1a") == PciBusId("Gpu-1a")
    ensures SanitizedSelector(PciBusId("Gpu-1a")) == PciBusId("gpu-1a")
    ensures ParseSelector("gpu-1a") == Uuid("GPU-1a") && SanitizedSelector(Uuid("GPU-1a")) == Uuid("GPU-1a")
  {
    TrimTrims("GPU-1a");
    var typed, lower := "Gpu-1a", ToAsciiLower("Gpu-1a");
    assert typed[0] == 'G' && typed[1] == 'p';
    WordParses(typed);
    WordParses("gpu-1a");
    assert lower[..] == "gpu-1a";
    var short := "gpu-1a";
    assert short[4..] == "1a";
  }

  /** A bare MIG prefix changes at every reading. */
  lemma BareMigAlternates()
    ensures ParseSelector("MIG-") == PciBusId("MIG-")
    ensures SanitizedSelector(PciBusId("MIG-")) == PciBusId("mig-")
    ensures ParseSelector("mig-") == Uuid("MIG-") && SanitizedSelector(Uuid("MIG-")) == Uuid("MIG-")
  {
    WordParses("MIG-");
    WordParses("mig-");
    TrimTrims("MIG-");
    var lower := ToAsciiLower("MIG-");
    assert lower[..] == "mig-";
    var short := "mig-";
    assert short[4..] == "";
  }

  lemma {:induction false} ZerosKeepNumber(s: string)
    requires AllHex(s)
    ensures AllHex("0000" + s) && HexNumber("0000" + s) == HexNumber(s)
  {
    var t := "0000" + s;
    assert forall i :: 0 <= i < |t| ==> t[i] == if i < 4 then '0' else s[i - 4];
    if s == "" {
      assert t == "0000";
      assert HexNumber("0000") == 0 by {
        assert "0000"[..3] == "000" && "000"[..2] == "00" && "00"[..1] == "0" && "0"[..0] == "";
      }
    } else {
      assert t[..|t| - 1] == "0000" + s[..|s| - 1];
      ZerosKeepNumber(s[..|s| - 1]);
    }
  }

  lemma BySixteen(q: nat, r: nat)
    requires r < 16
    ensures (16 * q + r) / 16 == q && (16 * q + r) % 16 == r
  {
  }

  lemma FourHexReads(a: nat, b: nat, c: nat, d: nat)
    requires a < 16 && b < 16 && c < 16 && d < 16
    ensures var n := 16 * (16 * (16 * a + b) + c) + d;
      n < 0x10000 && FourHex(n) == [HexLower(a), HexLower(b), HexLower(c), HexLower(d)]
  {
    BySixteen(16 * (16 * a + b) + c, d);
    BySixteen(16 * a + b, c);
    BySixteen(a, b);
  }

  lemma HexNumberSnoc(s: string, c: char)
    requires AllHex(s) && IsHex(c)
    ensures AllHex(s + [c]) && HexNumber(s + [c]) == 16 * HexNumber(s) + HexDigit(c)
  {
    assert (s + [c])[..|s|] == s;
  }

  lemma FourDigitNumber(a: char, b: char, c: char, d: char)
    requires IsHex(a) && IsHex(b) && IsHex(c) && IsHex(d)
    ensures AllHex([a, b, c, d])
    ensures HexNumber([a, b, c, d]) == 16 * (16 * (16 * HexDigit(a) + HexDigit(b)) + HexDigit(c)) + HexDigit(d)
  {
    HexNumberSnoc([], a);
    HexNumberSnoc([a], b);
    HexNumberSnoc([a, b], c);
    HexNumberSnoc([a, b, c], d);
    assert [] + [a] == [a] && [a] + [b] == [a, b] && [a, b] + [c] == [a, b, c] && [a, b, c] + [d] == [a, b, c, d];
  }

  predicate IsLowerHex(c: char) {
    '0' <= c <= '9' || 'a' <= c <= 'f'
  }

  lemma LowerDigit(c: char)
    requires IsLowerHex(c)
    ensures IsHex(c) && HexLower(HexDigit(c)) == c
  {
  }

  lemma LowerText(s: string, i: nat)
    requires i < |s| && AllHex(s) && ToAsciiLower(s) == s
    ensures IsLowerHex(s[i])
  {
    assert ToAsciiLower(s)[i] == s[i];
  }

  lemma FourLowerDigits(a: char, b: char, c: char, d: char)
    requires IsLowerHex(a) && IsLowerHex(b) && IsLowerHex(c) && IsLowerHex(d)
    ensures AllHex([a, b, c, d]) && HexNumber([a, b, c, d]) < 0x10000 && FourHex(HexNumber([a, b, c, d])) == [a, b, c, d]
  {
    LowerDigit(a);
    LowerDigit(b);
    LowerDigit(c);
    LowerDigit(d);
    FourDigitNumber(a, b, c, d);
    FourHexReads(HexDigit(a), HexDigit(b), HexDigit(c), HexDigit(d));
  }

  lemma FourDigits(s: string)
    requires |s| == 4 && AllHex(s) && ToAsciiLower(s) == s
    ensures HexNumber(s) < 0x10000 && FourHex(HexNumber(s)) == s
  {
    LowerText(s, 0);
    LowerText(s, 1);
    LowerText(s, 2);
    LowerText(s, 3);
    assert s == [s[0], s[1], s[2], s[3]];
    FourLowerDigits(s[0], s[1], s[2], s[3]);
  }

  /** The two spellings of one address are one: eight-digit domains that fit four
      digits are written with four, and short addresses are only put in lower
      case. */
  lemma LongAddressIsShort(s: string)
    requires |s| == 12 && ValidBdf(s) && ToAsciiLower(s) == s
    ensures NormalizePciBdf(s) == s
    ensures NormalizePciBdf("0000" + s) == s
  {
    var long := "0000" + s;
    var v := ToAsciiLower(long);
    assert v == long by {
      assert forall i :: 0 <= i < |long| ==> ToAsciiLower(long)[i] == if i < 4 then '0' else ToAsciiLower(s)[i - 4];
    }
    assert long[..8] == "0000" + s[..4] && long[8..] == s[4..];
    assert long[9..11] == s[5..7] && long[12..14] == s[8..10];
    assert ToAsciiLower(s[..4]) == s[..4] by {
      assert forall i :: 0 <= i < 4 ==> ToAsciiLower(s)[i] == s[i];
    }
    ZerosKeepNumber(s[..4]);
    FourDigits(s[..4]);
    assert s == s[..4] + s[4..];
  }
}
