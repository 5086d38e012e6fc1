/**
  `encodeURIComponent` and `decodeURIComponent`. A `char` is a Unicode scalar value, so every string
  is well formed and encoding never fails.
 */
module PercentEncoding {
  import opened Wrappers
  import opened TextRules
  import opened Bytes

  // ---- one character as bytes ----------------------------------------------------------------

  /** The UTF-8 bytes of a character. */
  function Utf8(c: char): (bytes: seq<Byte>)
    ensures 1 <= |bytes| <= 4
  {
    var n := c as int;
    if n < 0x80 then [n]
    else if n < 0x800 then [0xC0 + n / 0x40, 0x80 + n % 0x40]
    else if n < 0x10000 then [0xE0 + n / 0x1000, 0x80 + n / 0x40 % 0x40, 0x80 + n % 0x40]
    else [0xF0 + n / 0x40000, 0x80 + n / 0x1000 % 0x40, 0x80 + n / 0x40 % 0x40, 0x80 + n % 0x40]
  }

  /** How many bytes the character with this first byte has. */
  function Utf8Length(first: Byte): Option<nat> {
    if first < 0x80 then Some(1)
    else if 0xC0 <= first < 0xE0 then Some(2)
    else if 0xE0 <= first < 0xF0 then Some(3)
    else if 0xF0 <= first < 0xF8 then Some(4)
    else None
  }

  /** The number that follow-up bytes add to `n`, if they all are follow-up bytes. */
  function Follow(n: nat, rest: seq<Byte>): Option<nat>
    decreases |rest|
  {
    if rest == [] then Some(n)
    else if !(0x80 <= rest[0] < 0xC0) then None
    else Follow(n * 0x40 + (rest[0] - 0x80), rest[1..])
  }

  /** The character with these bytes; overlong forms, surrogates and numbers past the last character are refused. */
  function FromUtf8(bytes: seq<Byte>): Option<char>
    requires bytes != []
  {
    var length := Utf8Length(bytes[0]);
    if length != Some(|bytes|) then None
    else
      var lead := if |bytes| == 1 then bytes[0] else if |bytes| == 2 then bytes[0] - 0xC0
                  else if |bytes| == 3 then bytes[0] - 0xE0 else bytes[0] - 0xF0;
      var number := Follow(lead, bytes[1..]);
      var least := if |bytes| == 1 then 0 else if |bytes| == 2 then 0x80 else if |bytes| == 3 then 0x800 else 0x10000;
      if number.None? || number.value < least then None
      else if number.value < 0xD800 || 0xE000 <= number.value < 0x110000 then Some(number.value as char)
      else None
  }

  lemma Utf8RoundTrip(c: char)
    ensures FromUtf8(Utf8(c)) == Some(c) && Utf8Length(Utf8(c)[0]) == Some(|Utf8(c)|)
  {
    var n := c as int;
    if n < 0x80 {
    } else if n < 0x800 {
      TwoBytes(c);
    } else if n < 0x10000 {
      ThreeBytes(c);
    } else {
      FourBytes(c);
    }
  }

  lemma TwoBytes(c: char)
    requires 0x80 <= c as int < 0x800
    ensures FromUtf8(Utf8(c)) == Some(c) && Utf8Length(Utf8(c)[0]) == Some(|Utf8(c)|)
  {
    var n := c as int;
    FollowOne(n / 0x40, [0x80 + n % 0x40]);
  }

  lemma ThreeBytes(c: char)
    requires 0x800 <= c as int < 0x10000
    ensures FromUtf8(Utf8(c)) == Some(c) && Utf8Length(Utf8(c)[0]) == Some(|Utf8(c)|)
  {
    var n := c as int;
    assert n / 0x1000 * 0x40 + n / 0x40 % 0x40 == n / 0x40;
    FollowTwo(n / 0x1000, [0x80 + n / 0x40 % 0x40, 0x80 + n % 0x40]);
  }

  lemma FourBytes(c: char)
    requires 0x10000 <= c as int
    ensures FromUtf8(Utf8(c)) == Some(c) && Utf8Length(Utf8(c)[0]) == Some(|Utf8(c)|)
  {
    var n := c as int;
    assert n / 0x40000 * 0x40 + n / 0x1000 % 0x40 == n / 0x1000;
    assert n / 0x1000 * 0x40 + n / 0x40 % 0x40 == n / 0x40;
    FollowThree(n / 0x40000, [0x80 + n / 0x1000 % 0x40, 0x80 + n / 0x40 % 0x40, 0x80 + n % 0x40]);
  }

  lemma FollowOne(n: nat, rest: seq<Byte>)
    requires |rest| == 1 && 0x80 <= rest[0] < 0xC0
    ensures Follow(n, rest) == Some(n * 0x40 + (rest[0] - 0x80))
  {
    assert rest[1..] == [];
  }

  lemma FollowTwo(n: nat, rest: seq<Byte>)
    requires |rest| == 2 && 0x80 <= rest[0] < 0xC0 && 0x80 <= rest[1] < 0xC0
    ensures Follow(n, rest) == Some((n * 0x40 + (rest[0] - 0x80)) * 0x40 + (rest[1] - 0x80))
  {
    FollowOne(n * 0x40 + (rest[0] - 0x80), rest[1..]);
  }

  lemma FollowThree(n: nat, rest: seq<Byte>)
    requires |rest| == 3 && forall i :: 0 <= i < 3 ==> 0x80 <= rest[i] < 0xC0
    ensures Follow(n, rest) == Some(((n * 0x40 + (rest[0] - 0x80)) * 0x40 + (rest[1] - 0x80)) * 0x40 + (rest[2] - 0x80))
  {
    FollowTwo(n * 0x40 + (rest[0] - 0x80), rest[1..]);
  }

  // ---- escapes -------------------------------------------------------------------------------

  function HexDigit(n: nat): (c: char)
    requires n < 16
    ensures HexValue(c) == Some(n) && IsHex(c)
  {
    "0123456789ABCDEF"[n]
  }

  function Escape(b: Byte): (s: string)
    ensures |s| == 3 && s[0] == '%' && IsHex(s[1]) && IsHex(s[2])
  {
    ['%', HexDigit(b / 16), HexDigit(b % 16)]
  }

  /** The byte of the escape at the start of `s`. */
  function Unescape(s: string): (b: Option<Byte>)
    ensures b.Some? ==> |s| >= 3
  {
    if |s| < 3 || s[0] != '%' then None
    else
      var high, low := HexValue(s[1]), HexValue(s[2]);
      if high.None? || low.None? || high.value >= 16 || low.value >= 16 then None
      else Some(high.value * 16 + low.value)
  }

  function Escapes(bytes: seq<Byte>): (s: string)
    ensures |s| == 3 * |bytes|
  {
    if bytes == [] then "" else Escape(bytes[0]) + Escapes(bytes[1..])
  }

  /** The bytes of the `n` escapes at the start of `s`. */
  function Unescapes(s: string, n: nat): (r: Option<seq<Byte>>)
    ensures r.Some? ==> |r.value| == n && |s| >= 3 * n
  {
    if n == 0 then Some([])
    else
      var b := Unescape(s);
      if b.None? then None
      else
        var rest := Unescapes(s[3..], n - 1);
        if rest.None? then None else Some([b.value] + rest.value)
  }

  lemma UnescapeEscape(b: Byte, tail: string)
    ensures Unescape(Escape(b) + tail) == Some(b) && (Escape(b) + tail)[3..] == tail
  {
    var s := Escape(b) + tail;
    assert s[0] == '%' && s[1] == HexDigit(b / 16) && s[2] == HexDigit(b % 16);
  }

  lemma UnescapesFirst(s: string, bytes: seq<Byte>)
    requires bytes != [] && Unescape(s) == Some(bytes[0]) && Unescapes(s[3..], |bytes| - 1) == Some(bytes[1..])
    ensures Unescapes(s, |bytes|) == Some(bytes)
  {
    assert bytes == [bytes[0]] + bytes[1..];
  }

  lemma {:induction false} UnescapesEscapes(bytes: seq<Byte>, tail: string)
    ensures Unescapes(Escapes(bytes) + tail, |bytes|) == Some(bytes)
  {
    if bytes != [] {
      var rest := Escapes(bytes[1..]) + tail;
      UnescapesEscapes(bytes[1..], tail);
      UnescapeEscape(bytes[0], rest);
      assert Escapes(bytes) + tail == Escape(bytes[0]) + rest;
      UnescapesFirst(Escape(bytes[0]) + rest, bytes);
    }
  }

  predicate IsUnreserved(c: char) {
    'A' <= c <= 'Z' || 'a' <= c <= 'z' || '0' <= c <= '9' || c in "-_.!~*'()"
  }

  function Encode(s: string): string {
    if s == "" then ""
    else EncodeChar(s[0]) + Encode(s[1..])
  }

  /** The character at the start of `s`, and how much of `s` stands for it. */
  function DecodeHead(s: string): (r: Option<(char, nat)>)
    requires s != ""
    ensures r.Some? ==> 1 <= r.value.1 <= |s|
  {
    if s[0] != '%' then Some((s[0], 1))
    else
      var first := Unescape(s);
      var length := if first.Some? then Utf8Length(first.value) else None;
      var bytes: Option<seq<Byte>> := if length.Some? then Unescapes(s, length.value) else None;
      var c := if bytes.Some? && bytes.value != [] then FromUtf8(bytes.value) else None;
      if c.None? then None else Some((c.value, 3 * length.value))
  }

  function Decode(s: string): Option<string>
    decreases |s|
  {
    if s == "" then Some("")
    else
      var head := DecodeHead(s);
      if head.None? then None
      else
        var rest := Decode(s[head.value.1..]);
        if rest.None? then None else Some([head.value.0] + rest.value)
  }

  function EncodeChar(c: char): (s: string)
    ensures s != ""
  {
    if IsUnreserved(c) then [c] else Escapes(Utf8(c))
  }

  lemma HeadOfEscapes(bytes: seq<Byte>, c: char, tail: string)
    requires bytes != [] && FromUtf8(bytes) == Some(c) && Utf8Length(bytes[0]) == Some(|bytes|)
    ensures DecodeHead(Escapes(bytes) + tail) == Some((c, |Escapes(bytes)|))
  {
    UnescapesEscapes(bytes, tail);
    FirstEscape(bytes, tail);
    HeadIs(Escapes(bytes) + tail, bytes, c);
  }

  lemma FirstEscape(bytes: seq<Byte>, tail: string)
    requires bytes != []
    ensures Unescape(Escapes(bytes) + tail) == Some(bytes[0])
  {
    UnescapeEscape(bytes[0], Escapes(bytes[1..]) + tail);
    assert Escapes(bytes) + tail == Escape(bytes[0]) + (Escapes(bytes[1..]) + tail);
  }

  lemma HeadIs(s: string, bytes: seq<Byte>, c: char)
    requires s != "" && bytes != [] && Unescape(s) == Some(bytes[0]) && Unescapes(s, |bytes|) == Some(bytes)
    requires FromUtf8(bytes) == Some(c) && Utf8Length(bytes[0]) == Some(|bytes|)
    ensures DecodeHead(s) == Some((c, 3 * |bytes|))
  {
  }

  lemma HeadOfEncoded(c: char, tail: string)
    ensures DecodeHead(EncodeChar(c) + tail) == Some((c, |EncodeChar(c)|))
  {
    if !IsUnreserved(c) {
      Utf8RoundTrip(c);
      HeadOfEscapes(Utf8(c), c, tail);
    }
  }

  /** Decoding undoes encoding. */
  lemma {:induction false} DecodeEncode(s: string)
    ensures Decode(Encode(s)) == Some(s)
  {
    if s != "" {
      HeadOfEncoded(s[0], Encode(s[1..]));
      var text := Encode(s);
      assert text == EncodeChar(s[0]) + Encode(s[1..]);
      assert text[|EncodeChar(s[0])|..] == Encode(s[1..]);
      DecodeEncode(s[1..]);
      assert s == [s[0]] + s[1..];
    }
  }

  /** The characters that encoded text is made of. */
  predicate IsEncodedChar(c: char) {
    IsUnreserved(c) || c == '%'
  }

  lemma {:induction false} EscapesAreEncoded(bytes: seq<Byte>)
    ensures forall c :: c in Escapes(bytes) ==> IsEncodedChar(c)
  {
    if bytes != [] {
      EscapesAreEncoded(bytes[1..]);
      forall c | c in Escapes(bytes) ensures IsEncodedChar(c) {
        assert c in Escape(bytes[0]) || c in Escapes(bytes[1..]);
        assert c in Escape(bytes[0]) ==> c == '%' || IsHex(c);
      }
    }
  }

  /** Encoded text holds no separator and no space, whatever the text. */
  lemma {:induction false} EncodedIsPlain(s: string)
    ensures forall c :: c in Encode(s) ==> IsEncodedChar(c) && !IsSpace(c) && c != ';' && c != '=' && c != ','
    ensures s != "" ==> Encode(s) != ""
  {
    if s != "" {
      EncodedIsPlain(s[1..]);
      EncodedCharIsPlain(s[0]);
      assert Encode(s) == EncodeChar(s[0]) + Encode(s[1..]);
    }
  }

  lemma EncodedCharIsPlain(c: char)
    ensures forall x :: x in EncodeChar(c) ==> IsEncodedChar(x) && !IsSpace(x) && x != ';' && x != '=' && x != ','
  {
    if !IsUnreserved(c) { EscapesAreEncoded(Utf8(c)); }
  }
}
