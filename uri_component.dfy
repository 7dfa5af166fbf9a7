/** `encodeURIComponent` as section 19.2.6.5 of ECMA-262 defines it: every
    character outside letters, digits and `-_.!~*'()` is written as the
    `%XX` escapes of its UTF-8 bytes, in upper-case hexadecimal. */
module UriComponent {

  /** The characters left as they are. */
  predicate Unreserved(c: char) {
    ('A' <= c <= 'Z') || ('a' <= c <= 'z') || ('0' <= c <= '9')
    || c == '-' || c == '_' || c == '.' || c == '!' || c == '~' || c == '*' || c == '\'' || c == '(' || c == ')'
  }

  predicate IsHexDigit(c: char) {
    ('0' <= c <= '9') || ('A' <= c <= 'F') || ('a' <= c <= 'f')
  }

  function HexDigit(d: nat): (c: char)
    requires d < 16
    ensures IsHexDigit(c) && Unreserved(c)
  {
    if d < 10 then ('0' as int + d) as char else ('A' as int + d - 10) as char
  }

  function HexValue(c: char): (d: nat)
    requires IsHexDigit(c)
    ensures d < 16
  {
    if '0' <= c <= '9' then c as int - '0' as int
    else if 'A' <= c <= 'F' then c as int - 'A' as int + 10
    else c as int - 'a' as int + 10
  }

  lemma HexRoundTrip(d: nat)
    requires d < 16
    ensures HexValue(HexDigit(d)) == d
  {
  }

  /** The UTF-8 encoding of one character (a Unicode scalar value). */
  function Utf8(c: char): (bytes: seq<nat>)
    ensures 1 <= |bytes| <= 4
    ensures forall i :: 0 <= i < |bytes| ==> bytes[i] < 256
    ensures (c as int) < 0x80 <==> bytes == [c as int]
  {
    var cp := c as int;
    if cp < 0x80 then [cp]
    else if cp < 0x800 then [0xC0 + cp / 0x40, 0x80 + cp % 0x40]
    else if cp < 0x1_0000 then [0xE0 + cp / 0x1000, 0x80 + (cp / 0x40) % 0x40, 0x80 + cp % 0x40]
    else [0xF0 + cp / 0x4_0000, 0x80 + (cp / 0x1000) % 0x40, 0x80 + (cp / 0x40) % 0x40, 0x80 + cp % 0x40]
  }

  /** `%XY` for one byte. */
  function PercentByte(b: nat): (s: string)
    requires b < 256
    ensures |s| == 3 && s[0] == '%' && IsHexDigit(s[1]) && IsHexDigit(s[2])
    ensures HexValue(s[1]) * 16 + HexValue(s[2]) == b
  {
    HexRoundTrip(b / 16);
    HexRoundTrip(b % 16);
    ['%', HexDigit(b / 16), HexDigit(b % 16)]
  }

  function PercentBytes(bytes: seq<nat>): (s: string)
    requires forall i :: 0 <= i < |bytes| ==> bytes[i] < 256
    ensures |s| == 3 * |bytes|
    ensures forall i :: 0 <= i < |s| ==> s[i] == '%' || Unreserved(s[i])
  {
    if bytes == [] then [] else PercentByte(bytes[0]) + PercentBytes(bytes[1..])
  }

  function EncodeChar(c: char): (s: string)
    ensures Unreserved(c) ==> s == [c]
    ensures forall i :: 0 <= i < |s| ==> s[i] == '%' || Unreserved(s[i])
  {
    if Unreserved(c) then [c] else PercentBytes(Utf8(c))
  }

  /** `encodeURIComponent(s)`: what comes out holds only unreserved
      characters and `%`, so none of the characters that delimit parts of a
      URL (`/ ? # & =`, white space) survive. */
  function EncodeUriComponent(s: string): (e: string)
    ensures forall i :: 0 <= i < |e| ==> e[i] == '%' || Unreserved(e[i])
    ensures |e| >= |s|
  {
    if s == [] then [] else EncodeChar(s[0]) + EncodeUriComponent(s[1..])
  }

  /** The encoding goes character by character. */
  lemma EncodeCons(c: char, s: string)
    ensures EncodeUriComponent([c] + s) == EncodeChar(c) + EncodeUriComponent(s)
  {
    assert ([c] + s)[1..] == s;
  }

  /** Text made of unreserved characters is encoded as itself. */
  lemma {:induction false} UnreservedUnchanged(s: string)
    requires forall i :: 0 <= i < |s| ==> Unreserved(s[i])
    ensures EncodeUriComponent(s) == s
  {
    if s != [] {
      UnreservedUnchanged(s[1..]);
      assert [s[0]] + s[1..] == s;
    }
  }

  /** Percent-decoding of single bytes: each `%XY` becomes the character with
      code XY and any other character stands for itself. For text whose
      characters are all ASCII this is what `decodeURIComponent` does. */
  function DecodeAscii(t: string): string
    decreases |t|
  {
    if t == [] then []
    else if |t| >= 3 && t[0] == '%' && IsHexDigit(t[1]) && IsHexDigit(t[2]) then
      [(HexValue(t[1]) * 16 + HexValue(t[2])) as char] + DecodeAscii(t[3..])
    else [t[0]] + DecodeAscii(t[1..])
  }

  predicate IsAscii(s: string) {
    forall i :: 0 <= i < |s| ==> (s[i] as int) < 0x80
  }

  /** Decoding undoes the encoding of one ASCII character in front of any
      text. */
  lemma {:induction false} DecodeEncodedChar(c: char, rest: string)
    requires (c as int) < 0x80
    ensures DecodeAscii(EncodeChar(c) + rest) == [c] + DecodeAscii(rest)
  {
    var t := EncodeChar(c) + rest;
    if Unreserved(c) {
      assert t[0] == c && c != '%';
      assert t[1..] == rest;
    } else {
      assert EncodeChar(c) == PercentByte(c as int);
      var p := PercentByte(c as int);
      assert t[..3] == p;
      assert t[3..] == rest;
    }
  }

  /** Decoding the encoding of an ASCII text gives the text back. */
  lemma {:induction false} EncodeDecodeAscii(s: string)
    requires IsAscii(s)
    ensures DecodeAscii(EncodeUriComponent(s)) == s
  {
    if s != [] {
      assert IsAscii(s[1..]);
      EncodeDecodeAscii(s[1..]);
      DecodeEncodedChar(s[0], EncodeUriComponent(s[1..]));
      assert [s[0]] + s[1..] == s;
    }
  }
}
