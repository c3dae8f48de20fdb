/** The textual form of a Guid in the "D" format: 32 hexadecimal digits in
    groups of 8-4-4-4-12 separated by hyphens. A Guid is read as the 128-bit
    number its digits spell. */
module GuidText {
  import opened Domain

  function Pow16(n: nat): (r: nat)
    ensures r > 0
  {
    if n == 0 then 1 else 16 * Pow16(n - 1)
  }

  /** Number of distinct Guids: 2^128. */
  const GuidCount: nat := Pow16(32)

  predicate IsHexDigit(c: char) {
    ('0' <= c <= '9') || ('a' <= c <= 'f') || ('A' <= c <= 'F')
  }

  function DigitValue(c: char): (d: nat)
    requires IsHexDigit(c)
    ensures d < 16
  {
    if '0' <= c <= '9' then (c - '0') as nat
    else if 'a' <= c <= 'f' then (c - 'a') as nat + 10
    else (c - 'A') as nat + 10
  }

  /** Lower-case digit for 0 <= d < 16 (the case Guid.ToString writes). */
  function HexChar(d: nat): (c: char)
    requires d < 16
    ensures IsHexDigit(c) && DigitValue(c) == d
  {
    if d < 10 then ('0' as int + d) as char else ('a' as int + d - 10) as char
  }

  /** A hex letter in lower case; every other character unchanged. */
  function LowerHex(c: char): char {
    if 'A' <= c <= 'F' then (c as int + 32) as char else c
  }

  /** The text with its hex letters in lower case. */
  function LowerHexText(s: string): (r: string)
    ensures |r| == |s| && forall i | 0 <= i < |s| :: r[i] == LowerHex(s[i])
  {
    seq(|s|, i requires 0 <= i < |s| => LowerHex(s[i]))
  }

  /** The number a string of hex digits spells, most significant first. */
  function HexValue(ds: string): (v: nat)
    requires forall i | 0 <= i < |ds| :: IsHexDigit(ds[i])
    ensures v < Pow16(|ds|)
  {
    if |ds| == 0 then 0
    else HexValue(ds[..|ds| - 1]) * 16 + DigitValue(ds[|ds| - 1])
  }

  /** `n` written with exactly `width` hex digits (the low digits of `n`). */
  function ToHex(n: nat, width: nat): (ds: string)
    ensures |ds| == width
    ensures forall i | 0 <= i < |ds| :: IsHexDigit(ds[i])
  {
    if width == 0 then [] else ToHex(n / 16, width - 1) + [HexChar(n % 16)]
  }

  lemma {:induction false} HexValueOfToHex(n: nat, width: nat)
    requires n < Pow16(width)
    ensures HexValue(ToHex(n, width)) == n
  {
    if width > 0 {
      HexValueOfToHex(n / 16, width - 1);
      var ds := ToHex(n, width);
      assert ds[..|ds| - 1] == ToHex(n / 16, width - 1);
    }
  }

  /** Reading digits and writing them back gives the same digits in lower
      case. */
  lemma {:induction false} ToHexOfHexValue(ds: string)
    requires forall i | 0 <= i < |ds| :: IsHexDigit(ds[i])
    ensures ToHex(HexValue(ds), |ds|) == LowerHexText(ds)
  {
    if |ds| > 0 {
      var init := ds[..|ds| - 1];
      var last := ds[|ds| - 1];
      ToHexOfHexValue(init);
      var v := HexValue(ds);
      assert v / 16 == HexValue(init) && v % 16 == DigitValue(last);
      assert LowerHexText(ds) == LowerHexText(init) + [LowerHex(last)];
    }
  }

  predicate HyphensAt(s: string)
    requires |s| == 36
  {
    s[8] == '-' && s[13] == '-' && s[18] == '-' && s[23] == '-'
  }

  /** The 32 digit positions of a "D"-format string, hyphens removed. */
  function Digits(s: string): (ds: string)
    requires |s| == 36
    ensures |ds| == 32
  {
    s[..8] + s[9..13] + s[14..18] + s[19..23] + s[24..]
  }

  /** Guid.TryParse restricted to the "D" format: None for any other text. */
  function ParseGuid(s: string): (r: Option<Guid>)
    ensures r.Some? ==> r.value < GuidCount
    ensures r.Some? ==> |s| == 36 && HyphensAt(s)
  {
    if |s| == 36 && HyphensAt(s) && forall i | 0 <= i < 32 :: IsHexDigit(Digits(s)[i])
    then Some(HexValue(Digits(s)))
    else None
  }

  /** Guid.ToString(): the "D" format, lower case. */
  function FormatGuid(g: Guid): (s: string)
    requires g < GuidCount
    ensures |s| == 36
  {
    var h := ToHex(g, 32);
    h[..8] + "-" + h[8..12] + "-" + h[12..16] + "-" + h[16..20] + "-" + h[20..]
  }

  /** Every Guid's text parses back to that Guid. */
  lemma {:induction false} ParseFormatRoundTrip(g: Guid)
    requires g < GuidCount
    ensures ParseGuid(FormatGuid(g)) == Some(g)
  {
    var h := ToHex(g, 32);
    var s := FormatGuid(g);
    assert HyphensAt(s);
    assert s[..8] == h[..8] && s[9..13] == h[8..12] && s[14..18] == h[12..16]
        && s[19..23] == h[16..20] && s[24..] == h[20..];
    assert h == h[..8] + h[8..12] + h[12..16] + h[16..20] + h[20..];
    HexValueOfToHex(g, 32);
  }

  /** A "D"-format string is its own digits with the hyphens put back. */
  lemma {:induction false} DigitsReassemble(t: string)
    requires |t| == 36 && HyphensAt(t)
    ensures t == Digits(t)[..8] + "-" + Digits(t)[8..12] + "-" + Digits(t)[12..16] + "-"
                 + Digits(t)[16..20] + "-" + Digits(t)[20..]
  {
    var d := Digits(t);
    assert d[..8] == t[..8] && d[8..12] == t[9..13] && d[12..16] == t[14..18]
        && d[16..20] == t[19..23] && d[20..] == t[24..];
    assert t == t[..8] + [t[8]] + t[9..13] + [t[13]] + t[14..18] + [t[18]] + t[19..23] + [t[23]] + t[24..];
  }

  /** Lowering the hex letters keeps the hyphens and lowers the digits. */
  lemma {:induction false} DigitsOfLowerHexText(t: string)
    requires |t| == 36 && HyphensAt(t)
    ensures |LowerHexText(t)| == 36 && HyphensAt(LowerHexText(t))
    ensures Digits(LowerHexText(t)) == LowerHexText(Digits(t))
  {
    var l := LowerHexText(t);
    var d := Digits(t);
    forall i | 0 <= i < 32
      ensures Digits(l)[i] == LowerHexText(d)[i]
    {
      var j := if i < 8 then i else if i < 12 then i + 1 else if i < 16 then i + 2 else if i < 20 then i + 3 else i + 4;
      assert Digits(l)[i] == l[j];
      assert d[i] == t[j];
    }
  }

  /** The other way round: text that parses is the Guid's own text, up to
      the case of its hex letters. */
  lemma {:induction false} FormatParseRoundTrip(s: string)
    requires ParseGuid(s).Some?
    ensures FormatGuid(ParseGuid(s).value) == LowerHexText(s)
  {
    ToHexOfHexValue(Digits(s));
    DigitsOfLowerHexText(s);
    DigitsReassemble(LowerHexText(s));
  }
}
