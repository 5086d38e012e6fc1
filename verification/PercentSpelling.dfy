/** Which texts `decodeURIComponent` accepts, and as what: a text decodes to another exactly if it spells it. */
module PercentSpelling {
  import opened Wrappers
  import opened TextRules
  import opened Bytes
  import opened PercentEncoding

  predicate IsFollow(b: Byte) {
    0x80 <= b <= 0xBF
  }

  /** What a follow-up byte adds. */
  function Low(b: Byte): int {
    b as int - 0x80
  }

  /** Section 3 of RFC 3629: these bytes are the UTF-8 form of the character. */
  predicate IsUtf8Of(bytes: seq<Byte>, c: char) {
    var n := c as int;
    || (|bytes| == 1 && n == bytes[0] <= 0x7F)
    || (|bytes| == 2 && 0xC0 <= bytes[0] <= 0xDF && IsFollow(bytes[1])
        && n == (bytes[0] as int - 0xC0) * 64 + Low(bytes[1]) && n > 0x7F)
    || (|bytes| == 3 && 0xE0 <= bytes[0] <= 0xEF && IsFollow(bytes[1]) && IsFollow(bytes[2])
        && n == (bytes[0] as int - 0xE0) * 4096 + Low(bytes[1]) * 64 + Low(bytes[2]) && n > 0x7FF)
    || (|bytes| == 4 && 0xF0 <= bytes[0] <= 0xF7 && IsFollow(bytes[1]) && IsFollow(bytes[2]) && IsFollow(bytes[3])
        && n == (bytes[0] as int - 0xF0) * 262144 + Low(bytes[1]) * 4096 + Low(bytes[2]) * 64 + Low(bytes[3]) && n > 0xFFFF)
  }

  lemma NoFollow(n: nat, rest: seq<Byte>, i: nat)
    requires i < |rest| && !IsFollow(rest[i])
    ensures Follow(n, rest) == None
    decreases |rest|
  {
    if i > 0 && IsFollow(rest[0]) { NoFollow(n * 0x40 + (rest[0] - 0x80), rest[1..], i - 1); }
  }

  /** The number that a lead byte starts with. */
  function Lead(bytes: seq<Byte>): int
    requires bytes != []
  {
    bytes[0] as int - if |bytes| == 1 then 0 else if |bytes| == 2 then 0xC0 else if |bytes| == 3 then 0xE0 else 0xF0
  }

  lemma FollowedNumber(lead: nat, rest: seq<Byte>)
    requires 1 <= |rest| <= 3
    ensures (exists i :: 0 <= i < |rest| && !IsFollow(rest[i])) ==> Follow(lead, rest) == None
    ensures (forall i :: 0 <= i < |rest| ==> IsFollow(rest[i])) ==>
      Follow(lead, rest) == Some(if |rest| == 1 then lead * 64 + Low(rest[0])
                                 else if |rest| == 2 then lead * 4096 + Low(rest[0]) * 64 + Low(rest[1])
                                 else lead * 262144 + Low(rest[0]) * 4096 + Low(rest[1]) * 64 + Low(rest[2]))
  {
    if i :| 0 <= i < |rest| && !IsFollow(rest[i]) {
      NoFollow(lead, rest, i);
    } else {
      assert forall i :: 0 <= i < |rest| ==> 0x80 <= rest[i] < 0xC0 by {
        forall i | 0 <= i < |rest| ensures 0x80 <= rest[i] < 0xC0 { assert IsFollow(rest[i]); }
      }
      if |rest| == 1 { FollowOne(lead, rest); } else if |rest| == 2 { FollowTwo(lead, rest); } else { FollowThree(lead, rest); }
    }
  }

  /** The reader of UTF-8 takes just the bytes that are the form of a character. */
  lemma FromUtf8Exactly(bytes: seq<Byte>, c: char)
    requires bytes != []
    ensures FromUtf8(bytes) == Some(c) <==> IsUtf8Of(bytes, c)
  {
    if Utf8Length(bytes[0]) == Some(|bytes|) && |bytes| > 1 {
      var rest := bytes[1..];
      assert forall i :: 0 <= i < |rest| ==> rest[i] == bytes[i + 1];
      FollowedNumber(Lead(bytes), rest);
    }
  }

  /** The writer of UTF-8 gives the form of the character, and there is no other. */
  lemma Utf8Exactly(bytes: seq<Byte>, c: char)
    ensures Utf8(c) == bytes <==> IsUtf8Of(bytes, c)
  {
    Utf8RoundTrip(c);
    FromUtf8Exactly(Utf8(c), c);
    if IsUtf8Of(bytes, c) { OneForm(bytes, Utf8(c), c); }
  }

  lemma SameDigits(h: int, l: int, h': int, l': int)
    requires 0 <= l < 64 && 0 <= l' < 64 && h * 64 + l == h' * 64 + l'
    ensures h == h' && l == l'
  {
  }

  lemma SameLength(a: seq<Byte>, b: seq<Byte>, c: char)
    requires IsUtf8Of(a, c) && IsUtf8Of(b, c)
    ensures |a| == |b|
  {
  }

  lemma OneForm(a: seq<Byte>, b: seq<Byte>, c: char)
    requires IsUtf8Of(a, c) && IsUtf8Of(b, c)
    ensures a == b
  {
    SameLength(a, b, c);
    if |a| == 2 {
      SameDigits(a[0] as int - 0xC0, Low(a[1]), b[0] as int - 0xC0, Low(b[1]));
    } else if |a| == 3 {
      var x, y := a[0] as int - 0xE0, b[0] as int - 0xE0;
      SameDigits(x * 64 + Low(a[1]), Low(a[2]), y * 64 + Low(b[1]), Low(b[2]));
      SameDigits(x, Low(a[1]), y, Low(b[1]));
    } else if |a| == 4 {
      var x, y := a[0] as int - 0xF0, b[0] as int - 0xF0;
      SameDigits(x * 4096 + Low(a[1]) * 64 + Low(a[2]), Low(a[3]), y * 4096 + Low(b[1]) * 64 + Low(b[2]), Low(b[3]));
      SameDigits(x * 64 + Low(a[1]), Low(a[2]), y * 64 + Low(b[1]), Low(b[2]));
      SameDigits(x, Low(a[1]), y, Low(b[1]));
    }
  }

  // ---- spellings -----------------------------------------------------------------------------

  /** A percent sign and the byte in two hexadecimal digits of either case. */
  predicate IsEscapeOf(part: string, b: Byte) {
    && |part| == 3 && part[0] == '%' && HexValue(part[1]).Some? && HexValue(part[2]).Some?
    && b == HexValue(part[1]).value * 16 + HexValue(part[2]).value
  }

  /** The part is the escapes of these bytes, one after the other. */
  predicate AreEscapesOf(part: string, bytes: seq<Byte>) {
    |part| == 3 * |bytes| && forall i :: 0 <= i < |bytes| ==> IsEscapeOf(part[3 * i..3 * i + 3], bytes[i])
  }

  /** A part stands for a character: as it is, unless it is a percent sign, or as the escapes of its UTF-8 form. */
  ghost predicate StandsFor(part: string, c: char) {
    || (part == [c] && c != '%')
    || (exists bytes :: IsUtf8Of(bytes, c) && AreEscapesOf(part, bytes))
  }

  ghost predicate Spells(s: string, t: string)
    decreases |t|
  {
    if t == "" then s == "" else exists k :: 0 <= k <= |s| && StandsFor(s[..k], t[0]) && Spells(s[k..], t[1..])
  }

  lemma HexValueIsSmall(c: char)
    ensures HexValue(c).Some? ==> HexValue(c).value < 16
  {
  }

  lemma UnescapeExactly(s: string, b: Byte)
    ensures Unescape(s) == Some(b) <==> |s| >= 3 && IsEscapeOf(s[..3], b)
  {
    if |s| >= 3 {
      HexValueIsSmall(s[1]);
      HexValueIsSmall(s[2]);
      assert s[..3][1] == s[1] && s[..3][2] == s[2];
    }
  }

  lemma {:induction false} UnescapesExactly(s: string, bytes: seq<Byte>)
    ensures Unescapes(s, |bytes|) == Some(bytes) <==> |s| >= 3 * |bytes| && AreEscapesOf(s[..3 * |bytes|], bytes)
    decreases |bytes|
  {
    if bytes != [] {
      UnescapeExactly(s, bytes[0]);
      if |s| >= 3 {
        UnescapesExactly(s[3..], bytes[1..]);
        EscapesSplit(s, bytes);
        assert bytes == [bytes[0]] + bytes[1..];
      }
    }
  }

  lemma SamePart(s: string, n: nat, i: nat)
    requires i + 1 < n && 3 * n <= |s|
    ensures s[3..][..3 * (n - 1)][3 * i..3 * i + 3] == s[..3 * n][3 * (i + 1)..3 * (i + 1) + 3]
  {
    var at := 3 * i;
    assert s[3..][..3 * (n - 1)][at..at + 3] == s[3 + at..6 + at];
    assert s[..3 * n][3 + at..6 + at] == s[3 + at..6 + at];
  }

  lemma EscapesSplit(s: string, bytes: seq<Byte>)
    requires bytes != [] && |s| >= 3
    ensures |s| >= 3 * |bytes| && AreEscapesOf(s[..3 * |bytes|], bytes) <==>
      IsEscapeOf(s[..3], bytes[0]) && |s[3..]| >= 3 * |bytes[1..]| && AreEscapesOf(s[3..][..3 * |bytes[1..]|], bytes[1..])
  {
    var n := |bytes|;
    if |s| >= 3 * n {
      var part, rest := s[..3 * n], s[3..][..3 * (n - 1)];
      assert part[3 * 0..3 * 0 + 3] == s[..3];
      forall i | 0 <= i < n - 1 ensures rest[3 * i..3 * i + 3] == part[3 * (i + 1)..3 * (i + 1) + 3] {
        SamePart(s, n, i);
      }
      if AreEscapesOf(part, bytes) {
        forall i | 0 <= i < n - 1 ensures IsEscapeOf(rest[3 * i..3 * i + 3], bytes[1..][i]) {
          assert IsEscapeOf(part[3 * (i + 1)..3 * (i + 1) + 3], bytes[i + 1]);
        }
      }
      if IsEscapeOf(s[..3], bytes[0]) && AreEscapesOf(rest, bytes[1..]) {
        forall i | 0 <= i < n ensures IsEscapeOf(part[3 * i..3 * i + 3], bytes[i]) {
          if i > 0 { assert IsEscapeOf(rest[3 * (i - 1)..3 * (i - 1) + 3], bytes[1..][i - 1]); }
        }
      }
    }
  }

  lemma FormIsNotEmpty(bytes: seq<Byte>, c: char)
    requires IsUtf8Of(bytes, c)
    ensures bytes != [] && Utf8Length(bytes[0]) == Some(|bytes|)
  {
  }

  lemma FirstEscapeOf(s: string, bytes: seq<Byte>)
    requires bytes != [] && |s| >= 3 * |bytes| && AreEscapesOf(s[..3 * |bytes|], bytes)
    ensures |s| >= 3 && IsEscapeOf(s[..3], bytes[0]) && s[0] == '%'
  {
    EscapesSplit(s, bytes);
  }

  lemma EscapedHead(s: string, bytes: seq<Byte>, c: char)
    requires |s| >= 3 * |bytes| && IsUtf8Of(bytes, c) && AreEscapesOf(s[..3 * |bytes|], bytes)
    ensures s != "" && DecodeHead(s) == Some((c, 3 * |bytes|))
  {
    FormIsNotEmpty(bytes, c);
    FirstEscapeOf(s, bytes);
    UnescapesExactly(s, bytes);
    UnescapeExactly(s, bytes[0]);
    FromUtf8Exactly(bytes, c);
    HeadIs(s, bytes, c);
  }

  /** One character is read off the start of a text exactly if a part there stands for it. */
  lemma HeadExactly(s: string, c: char, k: nat)
    requires s != "" && k <= |s|
    ensures DecodeHead(s) == Some((c, k)) <==> StandsFor(s[..k], c)
  {
    if DecodeHead(s) == Some((c, k)) {
      if s[0] == '%' {
        var length := Utf8Length(Unescape(s).value).value;
        var bytes := Unescapes(s, length).value;
        UnescapesExactly(s, bytes);
        FromUtf8Exactly(bytes, c);
        assert IsUtf8Of(bytes, c) && AreEscapesOf(s[..k], bytes);
      } else {
        assert s[..1] == [s[0]];
      }
    }
    if StandsFor(s[..k], c) {
      if s[..k] == [c] && c != '%' {
        assert s[0] == c;
      } else {
        var bytes :| IsUtf8Of(bytes, c) && AreEscapesOf(s[..k], bytes);
        EscapedHead(s, bytes, c);
      }
    }
  }

  lemma NothingStandsFor(c: char)
    ensures !StandsFor("", c)
  {
  }

  /** A text decodes to another if and only if it spells it, character by character; any other is malformed. */
  lemma {:induction false} DecodeExactly(s: string, t: string)
    ensures Decode(s) == Some(t) <==> Spells(s, t)
    decreases |s|
  {
    if s == "" {
      if t != "" { NothingStandsFor(t[0]); }
    } else if t != "" {
      if Decode(s) == Some(t) {
        var k := DecodeHead(s).value.1;
        HeadExactly(s, t[0], k);
        DecodeExactly(s[k..], t[1..]);
      }
      if Spells(s, t) {
        var k :| 0 <= k <= |s| && StandsFor(s[..k], t[0]) && Spells(s[k..], t[1..]);
        NothingStandsFor(t[0]);
        assert k > 0;
        HeadExactly(s, t[0], k);
        DecodeExactly(s[k..], t[1..]);
        assert t == [t[0]] + t[1..];
      }
    }
  }

  lemma {:induction false} EscapesAreUpper(bytes: seq<Byte>)
    ensures forall x :: x in Escapes(bytes) ==> x == '%' || '0' <= x <= '9' || 'A' <= x <= 'F'
  {
    if bytes != [] {
      EscapesAreUpper(bytes[1..]);
      forall x | x in Escapes(bytes) ensures x == '%' || '0' <= x <= '9' || 'A' <= x <= 'F' {
        assert x in Escape(bytes[0]) || x in Escapes(bytes[1..]);
      }
    }
  }

  /**
    What is written for a character: the letters, the digits and nine marks stand for themselves,
    every other one is written as the escapes of its UTF-8 form, in capital digits.
   */
  lemma EncodeCharExactly(c: char)
    ensures
      var kept := 'A' <= c <= 'Z' || 'a' <= c <= 'z' || '0' <= c <= '9'
                  || c in {'-', '_', '.', '!', '~', '*', '\'', '(', ')'};
      if kept then EncodeChar(c) == [c]
      else
        && AreEscapesOf(EncodeChar(c), Utf8(c)) && IsUtf8Of(Utf8(c), c)
        && forall x :: x in EncodeChar(c) ==> x == '%' || '0' <= x <= '9' || 'A' <= x <= 'F'
  {
    if !IsUnreserved(c) {
      var bytes := Utf8(c);
      UnescapesEscapes(bytes, "");
      assert Escapes(bytes) + "" == Escapes(bytes) && Escapes(bytes)[..3 * |bytes|] == Escapes(bytes);
      UnescapesExactly(Escapes(bytes), bytes);
      Utf8Exactly(bytes, c);
      EscapesAreUpper(bytes);
    }
  }
}
