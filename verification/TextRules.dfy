/** Rules on text that several parts of the program share. */
module TextRules {
  import opened Wrappers

  /** White space and line terminators, as `String.prototype.trim` removes them. */
  predicate IsSpace(c: char) {
    || '\t' <= c <= '\r' || c == ' ' || c == '\U{00A0}' || c == '\U{1680}' || '\U{2000}' <= c <= '\U{200A}'
    || c == '\U{2028}' || c == '\U{2029}' || c == '\U{202F}' || c == '\U{205F}' || c == '\U{3000}' || c == '\U{FEFF}'
  }

  function TrimStart(s: string): string {
    if s != "" && IsSpace(s[0]) then TrimStart(s[1..]) else s
  }

  function TrimEnd(s: string): string {
    if s != "" && IsSpace(s[|s| - 1]) then TrimEnd(s[..|s| - 1]) else s
  }

  function Trim(s: string): string {
    TrimEnd(TrimStart(s))
  }

  predicate IsTrimmed(s: string) {
    s == "" || (!IsSpace(s[0]) && !IsSpace(s[|s| - 1]))
  }

  lemma TrimmedStays(s: string)
    requires IsTrimmed(s)
    ensures Trim(s) == s
  {
  }

  lemma {:induction false} TrimEndKeepsStart(s: string)
    requires s == "" || !IsSpace(s[0])
    ensures IsTrimmed(TrimEnd(s))
  {
    if s != "" && IsSpace(s[|s| - 1]) { TrimEndKeepsStart(s[..|s| - 1]); }
  }

  lemma {:induction false} TrimStartEnds(s: string)
    ensures TrimStart(s) == "" || !IsSpace(TrimStart(s)[0])
  {
    if s != "" && IsSpace(s[0]) { TrimStartEnds(s[1..]); }
  }

  /** Trimming changes a string exactly if it is not trimmed already. */
  lemma TrimFixes(s: string)
    ensures IsTrimmed(Trim(s)) && (Trim(s) == s <==> IsTrimmed(s))
  {
    TrimStartEnds(s);
    TrimEndKeepsStart(TrimStart(s));
    if IsTrimmed(s) { TrimmedStays(s); }
  }

  /** What the white space characters are. */
  lemma SpaceExactly(c: char)
    ensures IsSpace(c) <==>
      c as int in {9, 10, 11, 12, 13, 32, 0xA0, 0x1680, 0x2000, 0x2001, 0x2002, 0x2003, 0x2004, 0x2005, 0x2006, 0x2007,
                   0x2008, 0x2009, 0x200A, 0x2028, 0x2029, 0x202F, 0x205F, 0x3000, 0xFEFF}
  {
  }

  ghost predicate AllSpace(s: string) {
    forall i :: 0 <= i < |s| ==> IsSpace(s[i])
  }

  lemma {:induction false} TrimStartCuts(s: string) returns (lead: string)
    ensures AllSpace(lead) && s == lead + TrimStart(s)
  {
    if s != "" && IsSpace(s[0]) {
      var rest := TrimStartCuts(s[1..]);
      lead := [s[0]] + rest;
      assert lead + TrimStart(s[1..]) == [s[0]] + s[1..];
    } else {
      lead := "";
    }
  }

  lemma {:induction false} TrimEndCuts(s: string) returns (tail: string)
    ensures AllSpace(tail) && s == TrimEnd(s) + tail
  {
    if s != "" && IsSpace(s[|s| - 1]) {
      var rest := TrimEndCuts(s[..|s| - 1]);
      tail := rest + [s[|s| - 1]];
      assert TrimEnd(s[..|s| - 1]) + tail == s[..|s| - 1] + [s[|s| - 1]];
    } else {
      tail := "";
    }
  }

  lemma {:induction false} TrimStartSkips(lead: string, s: string)
    requires AllSpace(lead)
    ensures TrimStart(lead + s) == TrimStart(s)
    decreases |lead|
  {
    if lead == "" {
      assert lead + s == s;
    } else {
      assert (lead + s)[1..] == lead[1..] + s;
      TrimStartSkips(lead[1..], s);
    }
  }

  lemma {:induction false} TrimEndSkips(s: string, tail: string)
    requires AllSpace(tail)
    ensures TrimEnd(s + tail) == TrimEnd(s)
    decreases |tail|
  {
    if tail == "" {
      assert s + tail == s;
    } else {
      var n := |tail| - 1;
      assert (s + tail)[..|s| + n] == s + tail[..n];
      TrimEndSkips(s, tail[..n]);
    }
  }

  ghost predicate Surrounds(s: string, lead: string, core: string, tail: string) {
    s == lead + core + tail && AllSpace(lead) && AllSpace(tail) && IsTrimmed(core)
  }

  lemma TrimSurrounds(s: string)
    ensures exists lead, tail :: Surrounds(s, lead, Trim(s), tail)
  {
    var lead := TrimStartCuts(s);
    var tail := TrimEndCuts(TrimStart(s));
    TrimFixes(s);
    assert lead + (Trim(s) + tail) == lead + Trim(s) + tail;
    assert Surrounds(s, lead, Trim(s), tail);
  }

  lemma SurroundedIsTrimmed(s: string, lead: string, core: string, tail: string)
    requires Surrounds(s, lead, core, tail)
    ensures Trim(s) == core
  {
    assert s == lead + (core + tail);
    TrimStartSkips(lead, core + tail);
    TrimEndSkips(core, tail);
    if core == "" {
      assert core + tail == tail && tail + "" == tail;
      TrimStartSkips(tail, "");
    } else {
      assert (core + tail)[0] == core[0];
    }
  }

  /** Trimming cuts white space off both ends, and leaves the one core that has none there. */
  lemma TrimExactly(s: string, core: string)
    ensures Trim(s) == core <==> exists lead, tail :: Surrounds(s, lead, core, tail)
  {
    TrimSurrounds(s);
    if lead, tail :| Surrounds(s, lead, core, tail) { SurroundedIsTrimmed(s, lead, core, tail); }
  }

  predicate IsHex(c: char) {
    '0' <= c <= '9' || 'a' <= c <= 'f' || 'A' <= c <= 'F'
  }

  function HexValue(c: char): Option<nat> {
    if '0' <= c <= '9' then Some(c as int - '0' as int)
    else if 'A' <= c <= 'F' then Some(c as int - 'A' as int + 10)
    else if 'a' <= c <= 'f' then Some(c as int - 'a' as int + 10)
    else None
  }

  /** The pattern of a UUID of version 1 to 5 and RFC 4122 variant, in either case. */
  predicate IsUuid(s: string) {
    |s| == 36 && forall i :: 0 <= i < 36 ==>
      if i == 8 || i == 13 || i == 18 || i == 23 then s[i] == '-'
      else if i == 14 then '1' <= s[i] <= '5'
      else if i == 19 then s[i] in "89abAB"
      else IsHex(s[i])
  }

  predicate HexGroup(g: string, n: nat) {
    |g| == n && forall i :: 0 <= i < n ==> HexValue(g[i]).Some?
  }

  ghost predicate UuidOf(s: string, a: string, b: string, c: string, d: string, e: string) {
    && s == a + "-" + b + "-" + c + "-" + d + "-" + e
    && HexGroup(a, 8) && HexGroup(b, 4) && HexGroup(c, 4) && HexGroup(d, 4) && HexGroup(e, 12)
    && (c[0] == '1' || c[0] == '2' || c[0] == '3' || c[0] == '4' || c[0] == '5')
    && (d[0] == '8' || d[0] == '9' || d[0] == 'a' || d[0] == 'b' || d[0] == 'A' || d[0] == 'B')
  }

  lemma UuidJoins(s: string)
    requires IsUuid(s)
    ensures UuidOf(s, s[..8], s[9..13], s[14..18], s[19..23], s[24..])
  {
    assert s == s[..8] + "-" + s[9..13] + "-" + s[14..18] + "-" + s[19..23] + "-" + s[24..];
    assert IsHex(s[14]) && IsHex(s[19]);
  }

  lemma UuidParts(s: string, a: string, b: string, c: string, d: string, e: string)
    requires UuidOf(s, a, b, c, d, e)
    ensures IsUuid(s)
  {
    assert |s| == 36 && s[8] == '-' && s[13] == '-' && s[18] == '-' && s[23] == '-';
    assert s[..8] == a && s[9..13] == b && s[14..18] == c && s[19..23] == d && s[24..] == e;
    assert s[14] == c[0] && s[19] == d[0];
    forall i | 0 <= i < 36 && i != 8 && i != 13 && i != 18 && i != 23 ensures IsHex(s[i]) {
      assert s[i] == if i < 8 then a[i] else if i < 13 then b[i - 9] else if i < 18 then c[i - 14] else if i < 23 then d[i - 19] else e[i - 24];
    }
  }

  /** A UUID is five groups of hexadecimal digits, the third of a known version, the fourth of the variant. */
  lemma UuidExactly(s: string)
    ensures IsUuid(s) <==> exists a, b, c, d, e :: UuidOf(s, a, b, c, d, e)
  {
    if IsUuid(s) { UuidJoins(s); }
    if a, b, c, d, e :| UuidOf(s, a, b, c, d, e) { UuidParts(s, a, b, c, d, e); }
  }

  predicate IsLower(s: string) {
    forall i :: 0 <= i < |s| ==> !('A' <= s[i] <= 'Z')
  }

  function LowerChar(c: char): char {
    if 'A' <= c <= 'Z' then (c as int + 32) as char else c
  }

  function Lower(s: string): string {
    seq(|s|, i requires 0 <= i < |s| => LowerChar(s[i]))
  }

  /** Two spellings of one UUID: the same hexadecimal digits by value. */
  predicate SameUuid(a: string, b: string)
    requires IsUuid(a) && IsUuid(b)
  {
    forall i :: 0 <= i < 36 ==> HexValue(a[i]) == HexValue(b[i])
  }

  /** Two strings spell the same UUID exactly if they are equal in lower case. */
  lemma SameUuidIsSameLower(a: string, b: string)
    requires IsUuid(a) && IsUuid(b)
    ensures SameUuid(a, b) <==> Lower(a) == Lower(b)
  {
    if SameUuid(a, b) {
      forall i | 0 <= i < 36 ensures LowerChar(a[i]) == LowerChar(b[i]) { SameDigit(a, b, i); }
    }
    if Lower(a) == Lower(b) {
      forall i | 0 <= i < 36 ensures HexValue(a[i]) == HexValue(b[i]) {
        assert Lower(a)[i] == Lower(b)[i];
        SameDigit(a, b, i);
      }
    }
  }

  lemma SameDigit(a: string, b: string, i: nat)
    requires IsUuid(a) && IsUuid(b) && i < 36
    ensures HexValue(a[i]) == HexValue(b[i]) <==> LowerChar(a[i]) == LowerChar(b[i])
  {
    assert i == 8 || i == 13 || i == 18 || i == 23 ==> a[i] == '-' && b[i] == '-';
    assert !(i == 8 || i == 13 || i == 18 || i == 23) ==> IsHex(a[i]) && IsHex(b[i]);
  }
}
