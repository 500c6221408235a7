/**
 * JavaScript's `encodeURIComponent` (section 19.2.6.4 of ECMA-262, 2023
 * edition), which percent-encodes as in section 2.1 of RFC 3986, together
 * with the decoder that inverts it (`decodeURIComponent`, section 19.2.6.2).
 * Strings are sequences of Unicode scalar values.
 */
module UriComponent {
  import opened Wrappers

  /** One octet of the UTF-8 form of a string. */
  type Byte = b: int | 0 <= b < 0x100

  /** The characters copied unchanged: ASCII letters, digits and - _ . ! ~ * ' ( ). */
  predicate IsUnreserved(c: char) {
    || ('A' <= c <= 'Z') || ('a' <= c <= 'z') || ('0' <= c <= '9')
    || c == '-' || c == '_' || c == '.' || c == '!' || c == '~'
    || c == '*' || c == '\'' || c == '(' || c == ')'
  }

  /** A hexadecimal digit as the decoder accepts it, in either case. */
  predicate IsHexDigit(c: char) {
    ('0' <= c <= '9') || ('A' <= c <= 'F') || ('a' <= c <= 'f')
  }

  /** A hexadecimal digit as the encoder writes it: a decimal digit or `A`-`F`. */
  predicate IsUpperHexDigit(c: char) {
    ('0' <= c <= '9') || ('A' <= c <= 'F')
  }

  function HexValue(c: char): (d: int)
    requires IsHexDigit(c)
    ensures 0 <= d < 16
  {
    if '0' <= c <= '9' then c as int - '0' as int
    else if 'A' <= c <= 'F' then c as int - 'A' as int + 10
    else c as int - 'a' as int + 10
  }

  /** The upper-case digit the encoder writes for `d`. */
  function HexDigit(d: int): (c: char)
    requires 0 <= d < 16
    ensures IsUpperHexDigit(c)
    ensures HexValue(c) == d
  {
    if d < 10 then ('0' as int + d) as char else ('A' as int + d - 10) as char
  }

  /** `%XY`: one octet escaped with two upper-case hexadecimal digits. */
  function Escape(b: Byte): (r: string)
    ensures |r| == 3 && r[0] == '%' && IsUpperHexDigit(r[1]) && IsUpperHexDigit(r[2])
    ensures HexValue(r[1]) * 16 + HexValue(r[2]) == b
  {
    ['%', HexDigit(b / 16), HexDigit(b % 16)]
  }

  function EscapeAll(bs: seq<Byte>): (r: string)
    ensures |r| == 3 * |bs|
    ensures forall i :: 0 <= i < |r| ==> IsUnreserved(r[i]) || r[i] == '%'
  {
    if bs == [] then [] else Escape(bs[0]) + EscapeAll(bs[1..])
  }

  /** The UTF-8 octets of one code point (section 3 of RFC 3629). */
  function Utf8(c: char): (bs: seq<Byte>)
    ensures 1 <= |bs| <= 4
    ensures |bs| == 1 <==> c as int < 0x80
  {
    var cp := c as int;
    if cp < 0x80 then [cp]
    else if cp < 0x800 then [0xC0 + cp / 0x40, 0x80 + cp % 0x40]
    else if cp < 0x10000 then [0xE0 + cp / 0x1000, 0x80 + cp / 0x40 % 0x40, 0x80 + cp % 0x40]
    else [0xF0 + cp / 0x40000, 0x80 + cp / 0x1000 % 0x40, 0x80 + cp / 0x40 % 0x40, 0x80 + cp % 0x40]
  }

  function EncodeChar(c: char): string {
    if IsUnreserved(c) then [c] else EscapeAll(Utf8(c))
  }

  /**
   * The encoded form of `s`. It is never shorter than `s`, holds only
   * unreserved characters and `%`, and equals `s` exactly when every
   * character of `s` is unreserved.
   */
  function Encode(s: string): (r: string)
    ensures |s| <= |r|
    ensures forall i :: 0 <= i < |r| ==> IsUnreserved(r[i]) || r[i] == '%'
    ensures r == s <==> forall i :: 0 <= i < |s| ==> IsUnreserved(s[i])
  {
    if s == [] then []
    else
      var r := EncodeChar(s[0]) + Encode(s[1..]);
      assert !IsUnreserved(s[0]) ==> |r| > |s|;
      assert (forall i :: 0 <= i < |s| ==> IsUnreserved(s[i])) ==> forall i :: 0 <= i < |s[1..]| ==> IsUnreserved(s[1..][i]);
      r
  }

  // The decoder.

  /** The octet written as `%XY` at the start of `s`, if there is one there. */
  function Octet(s: string): Option<Byte> {
    if |s| < 3 || s[0] != '%' || !IsHexDigit(s[1]) || !IsHexDigit(s[2]) then None
    else Some(HexValue(s[1]) * 16 + HexValue(s[2]))
  }

  /** `n` consecutive escaped octets at the start of `s`. */
  function Octets(s: string, n: nat): (r: Option<seq<Byte>>)
    ensures r.Some? ==> |r.value| == n && 3 * n <= |s|
    ensures r.Some? && n > 0 ==> Octet(s) == Some(r.value[0])
    decreases n
  {
    if n == 0 then Some([])
    else match Octet(s)
      case None => None
      case Some(b) =>
        match Octets(s[3..], n - 1)
        case None => None
        case Some(rest) => Some([b] + rest)
  }

  /** How many octets a UTF-8 sequence that starts with `b` has; 0 when none can start with `b`. */
  function Utf8Length(b: Byte): nat {
    if b < 0x80 then 1
    else if 0xC0 <= b < 0xE0 then 2
    else if 0xE0 <= b < 0xF0 then 3
    else if 0xF0 <= b < 0xF8 then 4
    else 0
  }

  /**
   * The code point a UTF-8 sequence stands for; None for a bad continuation
   * octet, an overlong form, a surrogate or a value beyond U+10FFFF.
   */
  function DecodeUtf8(bs: seq<Byte>): Option<char>
    requires 1 <= |bs| <= 4 && Utf8Length(bs[0]) == |bs|
  {
    if !(forall i :: 1 <= i < |bs| ==> 0x80 <= bs[i] < 0xC0) then None
    else
      var v: seq<int> := bs;
      var cp :=
        if |v| == 1 then v[0]
        else if |v| == 2 then (v[0] - 0xC0) * 0x40 + (v[1] - 0x80)
        else if |v| == 3 then (v[0] - 0xE0) * 0x1000 + (v[1] - 0x80) * 0x40 + (v[2] - 0x80)
        else (v[0] - 0xF0) * 0x40000 + (v[1] - 0x80) * 0x1000 + (v[2] - 0x80) * 0x40 + (v[3] - 0x80);
      var least: int :=
        if |bs| == 1 then 0 else if |bs| == 2 then 0x80 else if |bs| == 3 then 0x800 else 0x10000;
      if cp < least || 0x10FFFF < cp || (0xD800 <= cp < 0xE000) then None
      else Some(cp as char)
  }

  function Prepend(c: char, r: Option<string>): Option<string> {
    match r
    case None => None
    case Some(t) => Some([c] + t)
  }

  /** `decodeURIComponent`: None for a malformed escape or malformed UTF-8. */
  function Decode(s: string): Option<string>
    decreases |s|
  {
    if s == [] then Some([])
    else if s[0] != '%' then Prepend(s[0], Decode(s[1..]))
    else match Octet(s)
      case None => None
      case Some(lead) =>
        var n := Utf8Length(lead);
        if n == 0 then None
        else match Octets(s, n)
          case None => None
          case Some(bs) =>
            match DecodeUtf8(bs)
            case None => None
            case Some(c) => Prepend(c, Decode(s[3 * n..]))
  }

  // The round trip.

  lemma {:induction false} OctetsOfEscaped(bs: seq<Byte>, t: string, n: nat)
    requires n <= |bs|
    ensures Octets(EscapeAll(bs) + t, n) == Some(bs[..n])
    decreases n
  {
    if n > 0 {
      var s := EscapeAll(bs) + t;
      assert s == Escape(bs[0]) + (EscapeAll(bs[1..]) + t);
      assert Octet(s) == Some(bs[0]);
      assert s[3..] == EscapeAll(bs[1..]) + t;
      OctetsOfEscaped(bs[1..], t, n - 1);
      assert bs[..n] == [bs[0]] + bs[1..][..n - 1];
    }
  }

  lemma Utf8Decodes(c: char)
    ensures Utf8Length(Utf8(c)[0]) == |Utf8(c)|
    ensures DecodeUtf8(Utf8(c)) == Some(c)
  {
    var cp := c as int;
    if cp < 0x80 {
    } else if cp < 0x800 {
      Utf8Decodes2(c);
    } else if cp < 0x10000 {
      Utf8Decodes3(c);
    } else {
      Utf8Decodes4(c);
    }
  }

  lemma Utf8Decodes2(c: char)
    requires 0x80 <= c as int < 0x800
    ensures Utf8Length(Utf8(c)[0]) == |Utf8(c)| == 2
    ensures DecodeUtf8(Utf8(c)) == Some(c)
  {
    var cp := c as int;
    var bs := Utf8(c);
    assert bs == [0xC0 + cp / 0x40, 0x80 + cp % 0x40];
  }

  lemma Utf8Decodes3(c: char)
    requires 0x800 <= c as int < 0x10000
    ensures Utf8Length(Utf8(c)[0]) == |Utf8(c)| == 3
    ensures DecodeUtf8(Utf8(c)) == Some(c)
  {
    var cp := c as int;
    var bs := Utf8(c);
    var hi, mid, lo := cp / 0x1000, cp / 0x40 % 0x40, cp % 0x40;
    assert cp / 0x40 == hi * 0x40 + mid;
    assert cp == hi * 0x1000 + mid * 0x40 + lo;
    assert bs == [0xE0 + hi, 0x80 + mid, 0x80 + lo];
  }

  lemma Utf8Decodes4(c: char)
    requires 0x10000 <= c as int
    ensures Utf8Length(Utf8(c)[0]) == |Utf8(c)| == 4
    ensures DecodeUtf8(Utf8(c)) == Some(c)
  {
    var cp := c as int;
    var bs := Utf8(c);
    var top, hi, mid, lo := cp / 0x40000, cp / 0x1000 % 0x40, cp / 0x40 % 0x40, cp % 0x40;
    assert cp / 0x1000 == top * 0x40 + hi;
    assert cp / 0x40 == cp / 0x1000 * 0x40 + mid;
    assert cp == top * 0x40000 + hi * 0x1000 + mid * 0x40 + lo;
    assert bs == [0xF0 + top, 0x80 + hi, 0x80 + mid, 0x80 + lo];
  }

  lemma DecodeEncodedChar(c: char, t: string)
    ensures Decode(EncodeChar(c) + t) == Prepend(c, Decode(t))
  {
    var s := EncodeChar(c) + t;
    if IsUnreserved(c) {
      assert s[1..] == t;
    } else {
      var bs := Utf8(c);
      OctetsOfEscaped(bs, t, 1);
      OctetsOfEscaped(bs, t, |bs|);
      assert bs[..|bs|] == bs;
      Utf8Decodes(c);
      assert s[3 * |bs|..] == t;
    }
  }

  /** Decoding undoes encoding. */
  lemma {:induction false} DecodeEncode(s: string)
    ensures Decode(Encode(s)) == Some(s)
  {
    if s != [] {
      DecodeEncodedChar(s[0], Encode(s[1..]));
      DecodeEncode(s[1..]);
      assert [s[0]] + s[1..] == s;
    }
  }

  /** Distinct strings have distinct encodings. */
  lemma EncodeInjective(a: string, b: string)
    requires Encode(a) == Encode(b)
    ensures a == b
  {
    DecodeEncode(a);
    DecodeEncode(b);
  }
}
