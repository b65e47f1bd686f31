/** The `application/x-www-form-urlencoded` serializer behind
    `URLSearchParams.toString()`: ASCII letters, digits and `*-._` stay as
    they are, a space becomes `+`, and every other character becomes the
    `%HH` escapes (upper-case hex) of its UTF-8 bytes. */
module FormEncoding {

  type Byte = n: int | 0 <= n < 256

  predicate Unreserved(c: char) {
    || 'a' <= c <= 'z' || 'A' <= c <= 'Z' || '0' <= c <= '9'
    || c == '*' || c == '-' || c == '.' || c == '_'
  }

  predicate IsHexDigit(c: char) {
    '0' <= c <= '9' || 'A' <= c <= 'F'
  }

  function HexDigit(n: int): (c: char)
    requires 0 <= n < 16
    ensures IsHexDigit(c)
  {
    if n < 10 then ('0' as int + n) as char else ('A' as int + n - 10) as char
  }

  function HexValue(c: char): (n: int)
    requires IsHexDigit(c)
    ensures 0 <= n < 16 && HexDigit(n) == c
  {
    if c <= '9' then c as int - '0' as int else c as int - 'A' as int + 10
  }

  /** The UTF-8 encoding of one Unicode scalar value. */
  function Utf8(c: char): (bytes: seq<Byte>)
    ensures 1 <= |bytes| <= 4
    ensures |bytes| == 1 <==> c as int < 0x80
    ensures |bytes| == 1 ==> bytes[0] == c as int
    ensures forall i :: 1 <= i < |bytes| ==> 0x80 <= bytes[i] < 0xC0
    ensures |bytes| > 1 ==> bytes[0] >= 0xC0
  {
    var n := c as int;
    if n < 0x80 then [n]
    else if n < 0x800 then [0xC0 + n / 64, 0x80 + n % 64]
    else if n < 0x10000 then [0xE0 + n / 4096, 0x80 + (n / 64) % 64, 0x80 + n % 64]
    else [0xF0 + n / 262144, 0x80 + (n / 4096) % 64, 0x80 + (n / 64) % 64, 0x80 + n % 64]
  }

  function PercentEscapes(bytes: seq<Byte>): (r: string)
    ensures |r| == 3 * |bytes|
    ensures forall i :: 0 <= i < |r| ==> r[i] == '%' || IsHexDigit(r[i])
  {
    if bytes == [] then []
    else ['%', HexDigit(bytes[0] / 16), HexDigit(bytes[0] % 16)] + PercentEscapes(bytes[1..])
  }

  function EncodeChar(c: char): string {
    if Unreserved(c) then [c]
    else if c == ' ' then "+"
    else PercentEscapes(Utf8(c))
  }

  /** The encoding of one name or value. */
  function Encode(s: string): (r: string)
    ensures forall i :: 0 <= i < |r| ==> Unreserved(r[i]) || r[i] == '+' || r[i] == '%'
    ensures '&' !in r && '=' !in r && '?' !in r && '#' !in r && ' ' !in r
  {
    if s == [] then [] else EncodeChar(s[0]) + Encode(s[1..])
  }

  /** `name=value` pairs joined with `&`, each side encoded. */
  function Serialize(pairs: seq<(string, string)>): string {
    if pairs == [] then []
    else
      var head := Encode(pairs[0].0) + "=" + Encode(pairs[0].1);
      if |pairs| == 1 then head else head + "&" + Serialize(pairs[1..])
  }

  lemma SerializeTwo(a: (string, string), b: (string, string))
    ensures Serialize([a, b]) == Encode(a.0) + "=" + Encode(a.1) + "&" + Encode(b.0) + "=" + Encode(b.1)
  {
    assert [a, b][1..] == [b];
  }

  /** A separator that occurs in neither of two heads splits a string the
      same way wherever it is taken apart. */
  lemma SplitAtSeparator(x: string, t1: string, y: string, t2: string, sep: char)
    requires sep !in x && sep !in y
    requires |t1| > 0 && t1[0] == sep && |t2| > 0 && t2[0] == sep
    requires x + t1 == y + t2
    ensures x == y && t1 == t2
  {
    assert x == (x + t1)[..|x|];
    assert y == (y + t2)[..|y|];
    assert t1 == (x + t1)[|x|..];
    assert t2 == (y + t2)[|y|..];
  }

  /** Two `a…b…` strings with the same fixed parts and separator-free first
      fields have the same fields. */
  lemma TwoFieldsEqual(a: string, x: string, b: string, u: string, y: string, w: string, sep: char)
    requires sep !in x && sep !in y && |b| > 0 && b[0] == sep
    requires a + x + b + u == a + y + b + w
    ensures x == y && u == w
  {
    assert (a + x + b + u)[|a|..] == x + (b + u);
    assert (a + y + b + w)[|a|..] == y + (b + w);
    SplitAtSeparator(x, b + u, y, b + w, sep);
    assert (b + u)[|b|..] == u;
    assert (b + w)[|b|..] == w;
  }

  /** Percent-decoding of a form value: `+` is a space and `%HH` the
      character with that code; it recovers ASCII values. */
  function Decode(s: string): string {
    if s == [] then []
    else if s[0] == '+' then " " + Decode(s[1..])
    else if s[0] == '%' && |s| >= 3 && IsHexDigit(s[1]) && IsHexDigit(s[2]) then
      [(HexValue(s[1]) * 16 + HexValue(s[2])) as char] + Decode(s[3..])
    else [s[0]] + Decode(s[1..])
  }

  predicate IsAscii(s: string) {
    forall i :: 0 <= i < |s| ==> s[i] as int < 0x80
  }

  /** Text made only of unreserved characters is left as it is. */
  lemma {:induction false} EncodeUnreserved(s: string)
    requires forall i :: 0 <= i < |s| ==> Unreserved(s[i])
    ensures Encode(s) == s
  {
    if s != [] {
      EncodeUnreserved(s[1..]);
    }
  }

  lemma DecodeEncodedChar(c: char, rest: string)
    requires c as int < 0x80
    ensures Decode(EncodeChar(c) + rest) == [c] + Decode(rest)
  {
    if Unreserved(c) {
      assert Unreserved(c) ==> c != '+' && c != '%';
      assert ([c] + rest)[1..] == rest;
    } else if c == ' ' {
      assert ("+" + rest)[1..] == rest;
    } else {
      var b := c as int;
      var e := PercentEscapes([b]);
      assert e == ['%', HexDigit(b / 16), HexDigit(b % 16)];
      var t := e + rest;
      assert t[0] == '%' && t[1] == HexDigit(b / 16) && t[2] == HexDigit(b % 16) && t[3..] == rest;
      assert HexValue(t[1]) == b / 16 && HexValue(t[2]) == b % 16;
    }
  }

  /** Decoding undoes encoding for ASCII text. */
  lemma {:induction false} DecodeEncode(s: string)
    requires IsAscii(s)
    ensures Decode(Encode(s)) == s
  {
    if s != [] {
      DecodeEncode(s[1..]);
      DecodeEncodedChar(s[0], Encode(s[1..]));
      assert s == [s[0]] + s[1..];
    }
  }
}
