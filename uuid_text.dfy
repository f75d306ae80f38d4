/** The textual form of a CFUUID: CFUUIDCreateString writes the 16 bytes as
    upper-case hexadecimal in groups of 8-4-4-4-12 separated by '-', and
    CFUUIDCreateFromString reads that form back (either letter case). */
module UuidText {
  import opened Wrappers
  import opened CFTypes

  const HexDigits: string := "0123456789ABCDEF"

  function HexChar(n: int): char
    requires 0 <= n < 16
  {
    HexDigits[n]
  }

  /** The value of one hexadecimal digit, upper or lower case. */
  function HexValue(c: char): (r: Option<int>)
    ensures r.Some? ==> 0 <= r.value < 16
  {
    if '0' <= c <= '9' then Some(c as int - '0' as int)
    else if 'A' <= c <= 'F' then Some(c as int - 'A' as int + 10)
    else if 'a' <= c <= 'f' then Some(c as int - 'a' as int + 10)
    else None
  }

  lemma HexValueOfHexChar(n: int)
    requires 0 <= n < 16
    ensures HexValue(HexChar(n)) == Some(n)
  {
  }

  /** Two digits per byte, high nibble first. */
  function HexBytes(bs: seq<byte>): (r: string)
    ensures |r| == 2 * |bs|
  {
    if bs == [] then "" else HexPair(bs[0]) + HexBytes(bs[1..])
  }

  /** The two digits of one byte. */
  function HexPair(b: byte): (r: string)
    ensures |r| == 2
  {
    [HexChar(b / 16), HexChar(b % 16)]
  }

  function ParseHexBytes(s: string): Option<seq<byte>>
    decreases |s|
  {
    if s == [] then Some([])
    else if |s| < 2 || HexValue(s[0]).None? || HexValue(s[1]).None? then None
    else
      match ParseHexBytes(s[2..])
      case None => None
      case Some(rest) => Some([HexValue(s[0]).value * 16 + HexValue(s[1]).value] + rest)
  }

  lemma {:induction false} HexRoundTrip(bs: seq<byte>)
    ensures ParseHexBytes(HexBytes(bs)) == Some(bs)
  {
    if bs != [] {
      HexRoundTrip(bs[1..]);
      ParsePairStep(bs[0], HexBytes(bs[1..]));
      assert [bs[0]] + bs[1..] == bs;
    }
  }

  /** Parsing the two digits of a byte in front of a parsable string. */
  lemma ParsePairStep(b: byte, rest: string)
    requires ParseHexBytes(rest).Some?
    ensures ParseHexBytes(HexPair(b) + rest) == Some([b] + ParseHexBytes(rest).value)
  {
    var hi, lo := b / 16, b % 16;
    ParseDigitsStep(hi, lo, rest);
    assert hi * 16 + lo == b;
  }

  /** Parsing the digits of two nibbles in front of a parsable string. */
  lemma ParseDigitsStep(hi: int, lo: int, rest: string)
    requires 0 <= hi < 16 && 0 <= lo < 16 && ParseHexBytes(rest).Some?
    ensures ParseHexBytes([HexChar(hi), HexChar(lo)] + rest) == Some([hi * 16 + lo] + ParseHexBytes(rest).value)
  {
    var s := [HexChar(hi), HexChar(lo)] + rest;
    HexValueOfHexChar(hi);
    HexValueOfHexChar(lo);
    assert s[0] == HexChar(hi) && s[1] == HexChar(lo) && s[2..] == rest;
    ParseHexStep(s);
  }

  /** One step of the parser: two digits, then the rest. */
  lemma ParseHexStep(s: string)
    requires |s| >= 2 && HexValue(s[0]).Some? && HexValue(s[1]).Some? && ParseHexBytes(s[2..]).Some?
    ensures ParseHexBytes(s) == Some([HexValue(s[0]).value * 16 + HexValue(s[1]).value] + ParseHexBytes(s[2..]).value)
  {
  }

  /** CFUUIDCreateString */
  function UuidString(u: Uuid): (r: string)
    ensures |r| == 36
    ensures r[8] == '-' && r[13] == '-' && r[18] == '-' && r[23] == '-'
  {
    var h := HexBytes(u);
    h[..8] + "-" + h[8..12] + "-" + h[12..16] + "-" + h[16..20] + "-" + h[20..]
  }

  /** The 32 digits of a 36-character UUID string, with the four dashes taken out. */
  function UuidDigits(s: string): string
    requires |s| == 36
  {
    s[..8] + s[9..13] + s[14..18] + s[19..23] + s[24..]
  }

  /** CFUUIDCreateFromString, for the canonical 8-4-4-4-12 layout. */
  function UuidFromString(s: string): Option<Uuid> {
    if |s| != 36 || s[8] != '-' || s[13] != '-' || s[18] != '-' || s[23] != '-' then None
    else
      var bs :- ParseHexBytes(UuidDigits(s));
      if |bs| == 16 then Some(bs) else None
  }

  /** Reading back what CFUUIDCreateString wrote gives the same UUID. */
  lemma UuidRoundTrip(u: Uuid)
    ensures UuidFromString(UuidString(u)) == Some(u)
  {
    var h := HexBytes(u);
    var s := UuidString(u);
    assert s[..8] == h[..8];
    assert s[9..13] == h[8..12];
    assert s[14..18] == h[12..16];
    assert s[19..23] == h[16..20];
    assert s[24..] == h[20..];
    assert UuidDigits(s) == h;
    HexRoundTrip(u);
  }

  /** Distinct UUIDs have distinct strings. */
  lemma UuidStringInjective(u: Uuid, v: Uuid)
    requires UuidString(u) == UuidString(v)
    ensures u == v
  {
    UuidRoundTrip(u);
    UuidRoundTrip(v);
  }
}
