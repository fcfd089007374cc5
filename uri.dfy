/** `encodeURIComponent`: every character outside the unreserved set of section 2.3 of
    RFC 2396 (alphanumerics and `-_.!~*'()`) is written as the `%HH` escapes (section 2.1
    of RFC 3986) of its UTF-8 bytes. Dafny characters are Unicode scalar values, so the
    lone surrogates on which the JavaScript function throws cannot occur. */
module Uri {
  import JsText

  predicate IsUnreserved(c: char) {
    JsText.IsAsciiLetter(c) || JsText.IsAsciiDigit(c) || c in "-_.!~*'()"
  }

  predicate IsUpperHex(c: char) {
    JsText.IsAsciiDigit(c) || ('A' <= c <= 'F')
  }

  /** The UTF-8 encoding of one scalar value (RFC 3629 section 3). */
  function Utf8(c: char): (bytes: seq<int>)
    ensures 1 <= |bytes| <= 4
    ensures forall i | 0 <= i < |bytes| :: 0 <= bytes[i] < 256
  {
    var n := c as int;
    if n < 0x80 then [n]
    else if n < 0x800 then [0xC0 + n / 0x40, 0x80 + n % 0x40]
    else if n < 0x1_0000 then [0xE0 + n / 0x1000, 0x80 + (n / 0x40) % 0x40, 0x80 + n % 0x40]
    else [0xF0 + n / 0x4_0000, 0x80 + (n / 0x1000) % 0x40, 0x80 + (n / 0x40) % 0x40, 0x80 + n % 0x40]
  }

  function HexDigit(d: int): (c: char)
    requires 0 <= d < 16
    ensures IsUpperHex(c)
  {
    if d < 10 then ('0' as int + d) as char else ('A' as int + d - 10) as char
  }

  /** `%HH` for one byte. */
  function Escape(b: int): (r: string)
    requires 0 <= b < 256
  {
    ['%', HexDigit(b / 16), HexDigit(b % 16)]
  }

  function EscapeAll(bytes: seq<int>): (r: string)
    requires forall i | 0 <= i < |bytes| :: 0 <= bytes[i] < 256
    ensures |r| == 3 * |bytes|
    ensures forall i | 0 <= i < |r| :: if i % 3 == 0 then r[i] == '%' else IsUpperHex(r[i])
  {
    if bytes == [] then ""
    else
      var rest := EscapeAll(bytes[1..]);
      var r := Escape(bytes[0]) + rest;
      assert forall i | 3 <= i < |r| :: r[i] == rest[i - 3] && (i - 3) % 3 == i % 3;
      r
  }

  function EncodeChar(c: char): string {
    if IsUnreserved(c) then [c] else EscapeAll(Utf8(c))
  }

  /** `encodeURIComponent(s)` */
  function Encode(s: string): (r: string)
    ensures forall i | 0 <= i < |r| :: IsUnreserved(r[i]) || r[i] == '%'
  {
    if s == [] then ""
    else
      var head := EncodeChar(s[0]);
      var rest := Encode(s[1..]);
      assert forall i | 0 <= i < |head| :: IsUnreserved(head[i]) || head[i] == '%';
      assert forall i | |head| <= i < |head + rest| :: (head + rest)[i] == rest[i - |head|];
      head + rest
  }

  /** Characters with a meaning in a query string: the pair and key separators, the
      brackets of array keys, and the space, `#` and `+`. */
  predicate IsQueryDelimiter(c: char) {
    c == '&' || c == '=' || c == '[' || c == ']' || c == ' ' || c == '#' || c == '+'
  }

  /** Encoded text never holds a query delimiter, so it can stand as a value between `=`
      and `&` in a query string. */
  lemma EncodedHasNoDelimiters(s: string)
    ensures forall i | 0 <= i < |Encode(s)| :: !IsQueryDelimiter(Encode(s)[i])
  {
  }

  /** Each character is encoded on its own. */
  lemma {:induction false} EncodeAppend(a: string, b: string)
    ensures Encode(a + b) == Encode(a) + Encode(b)
  {
    if a != [] {
      assert (a + b)[0] == a[0];
      assert (a + b)[1..] == a[1..] + b;
      EncodeAppend(a[1..], b);
    } else {
      assert a + b == b;
    }
  }

  /** Text made of unreserved characters is left as it is. */
  lemma {:induction false} EncodeUnreserved(s: string)
    requires forall i | 0 <= i < |s| :: IsUnreserved(s[i])
    ensures Encode(s) == s
  {
    if s != [] {
      EncodeUnreserved(s[1..]);
    }
  }
}
