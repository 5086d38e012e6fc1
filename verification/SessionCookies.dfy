/** The device session in cookies: printing the four pairs, and parsing what comes back. */
module SessionCookies {
  import opened Wrappers
  import opened TextRules
  import opened PercentEncoding
  import Sorting

  const ACCESS := "tux_ops_access"
  const REFRESH := "tux_ops_refresh"
  const SHOP := "tux_ops_shop"
  const DEVICE := "tux_ops_device"
  const MAX_AGE_SECONDS: nat := 60 * 60 * 24 * 30

  datatype Session = Session(shopId: string, deviceId: string, accessToken: string, refreshToken: string)

  datatype StoredSession =
    | USABLE(session: Session)
    | REFRESHABLE(shopId: string, deviceId: string, refreshToken: string)
    | NOT_ENROLLED

  // ---- printing ------------------------------------------------------------------------------

  function Decimal(n: nat): (s: string)
    ensures s != ""
  {
    (if n < 10 then "" else Decimal(n / 10)) + ["0123456789"[n % 10]]
  }

  function Pair(name: string, raw: string): string {
    name + "=" + raw
  }

  function Attributes(maxAge: nat): string {
    "; Path=/api; Max-Age=" + Decimal(maxAge) + "; HttpOnly; Secure; SameSite=Strict"
  }

  function Cookie(name: string, value: string, maxAge: nat): string {
    Pair(name, Encode(value)) + Attributes(maxAge)
  }

  function ClearCookie(name: string): string {
    Pair(name, "") + Attributes(0)
  }

  /** How long the access cookie lives; `expiresAt` is absent when it is not a safe integer. */
  function AccessMaxAge(expiresAt: Option<int>, now: int): (age: nat)
    ensures 60 <= age <= 2_592_000
    ensures expiresAt.None? || expiresAt.value <= now ==> age == 3_600
    ensures expiresAt.Some? && now < expiresAt.value ==>
      && (now + age < expiresAt.value ==> age == 2_592_000)
      && (now + age > expiresAt.value ==> age == 60)
  {
    if expiresAt.None? || expiresAt.value <= now then 60 * 60
    else if expiresAt.value - now < 60 then 60
    else if expiresAt.value - now > MAX_AGE_SECONDS then MAX_AGE_SECONDS
    else expiresAt.value - now
  }

  function PrintedCookies(session: Session, accessMaxAge: nat): seq<string> {
    [Cookie(ACCESS, session.accessToken, accessMaxAge), Cookie(REFRESH, session.refreshToken, MAX_AGE_SECONDS),
     Cookie(SHOP, session.shopId, MAX_AGE_SECONDS), Cookie(DEVICE, session.deviceId, MAX_AGE_SECONDS)]
  }

  // ---- the user agent ------------------------------------------------------------------------

  /** A cookie as the user agent keeps and returns it. */
  datatype Kept = Kept(name: string, raw: string)

  function IndexOf(s: string, c: char): (r: Option<nat>)
    ensures r.Some? ==> r.value < |s| && s[r.value] == c && c !in s[..r.value]
    ensures r.None? ==> c !in s
  {
    if s == "" then None
    else if s[0] == c then Some(0)
    else
      var rest := IndexOf(s[1..], c);
      if rest.None? then None else Some(rest.value + 1)
  }

  lemma {:induction false} IndexIs(s: string, c: char, k: nat)
    requires k < |s| && s[k] == c && c !in s[..k]
    ensures IndexOf(s, c) == Some(k)
  {
    if k > 0 {
      assert s[..k][0] == s[0] && s[1..][..k - 1] == s[..k][1..];
      IndexIs(s[1..], c, k - 1);
    }
  }

  /** Section 5.2 of RFC 6265: the pair ends at the first semicolon, the name at the first equals sign. */
  function KeptOf(setCookie: string): Option<Kept> {
    var end := IndexOf(setCookie, ';');
    var pair := if end.Some? then setCookie[..end.value] else setCookie;
    var equals := IndexOf(pair, '=');
    if equals.None? || Trim(pair[..equals.value]) == "" then None
    else Some(Kept(Trim(pair[..equals.value]), Trim(pair[equals.value + 1..])))
  }

  /** Section 4.2.1 of RFC 6265: pairs joined by a semicolon and a space. */
  function CookieHeader(jar: seq<Kept>): string {
    if jar == [] then ""
    else
      var n := |jar| - 1;
      (if n == 0 then "" else CookieHeader(jar[..n]) + "; ") + Pair(jar[n].name, jar[n].raw)
  }

  /** A name that survives printing, and a raw value that does not end its segment. */
  predicate Plain(k: Kept) {
    && k.name != "" && IsTrimmed(k.name) && '=' !in k.name && ';' !in k.name
    && ';' !in k.raw
  }

  ghost predicate PlainJar(jar: seq<Kept>) {
    && (forall k :: k in jar ==> Plain(k))
    && (forall i, j :: 0 <= i < j < |jar| ==> jar[i].name != jar[j].name)
  }

  lemma KeptIsPrinted(name: string, raw: string, maxAge: nat)
    requires Plain(Kept(name, raw)) && IsTrimmed(raw)
    ensures KeptOf(Pair(name, raw) + Attributes(maxAge)) == Some(Kept(name, raw))
  {
    var pair := Pair(name, raw);
    var text := pair + Attributes(maxAge);
    assert ';' !in pair;
    assert text[..|pair|] == pair && Attributes(maxAge)[0] == ';';
    IndexIs(text, ';', |pair|);
    assert pair[..|name|] == name && pair[|name| + 1..] == raw;
    IndexIs(pair, '=', |name|);
    TrimmedStays(name);
    TrimmedStays(raw);
  }

  // ---- parsing -------------------------------------------------------------------------------

  function Split(s: string, separator: char): (parts: seq<string>)
    ensures parts != []
  {
    if s == "" then [""]
    else
      var n := |s| - 1;
      var parts := Split(s[..n], separator);
      if s[n] == separator then parts + [""]
      else parts[|parts| - 1 := parts[|parts| - 1] + [s[n]]]
  }

  lemma {:induction false} SplitNone(s: string, separator: char)
    requires separator !in s
    ensures Split(s, separator) == [s]
  {
    if s != "" {
      SplitNone(s[..|s| - 1], separator);
      assert s == s[..|s| - 1] + [s[|s| - 1]];
    }
  }

  lemma {:induction false} SplitOne(a: string, b: string, separator: char)
    requires separator !in b
    ensures Split(a + [separator] + b, separator) == Split(a, separator) + [b]
    decreases |b|
  {
    var s := a + [separator] + b;
    var n := |s| - 1;
    if b == "" {
      assert s[..n] == a;
    } else {
      var init := b[..|b| - 1];
      assert s[..n] == a + [separator] + init;
      SplitOne(a, init, separator);
      assert b == init + [b[|b| - 1]];
    }
  }

  /** The name and the value of a segment, unless it is ignored. */
  function CookieOf(segment: string): Option<(string, string)> {
    var separator := IndexOf(segment, '=');
    if separator.None? || separator.value == 0 then None
    else
      var name := Trim(segment[..separator.value]);
      var value := Decode(Trim(segment[separator.value + 1..]));
      if name == "" || value.None? then None else Some((name, value.value))
  }

  /** Assignments to the properties of a record, in order; `None` assigns nothing. */
  function Assigned(pairs: seq<Option<(string, string)>>): map<string, string> {
    if pairs == [] then map[]
    else
      var before, last := Assigned(pairs[..|pairs| - 1]), pairs[|pairs| - 1];
      if last.None? then before else before[last.value.0 := last.value.1]
  }

  function Cookies(segments: seq<string>): map<string, string> {
    Assigned(Sorting.Map(CookieOf, segments))
  }

  method ParseCookies(raw: string) returns (cookies: map<string, string>)
    ensures cookies == Cookies(Split(raw, ';'))
  {
    var segments := Split(raw, ';');
    cookies := map[];
    ghost var pairs := Sorting.Map(CookieOf, segments);
    for i := 0 to |segments|
      invariant cookies == Assigned(pairs[..i])
    {
      assert pairs[..i + 1][..i] == pairs[..i];
      var segment := segments[i];
      var separator := IndexOf(segment, '=');
      if separator.None? || separator.value == 0 { continue; }
      var name := Trim(segment[..separator.value]);
      var value := Trim(segment[separator.value + 1..]);
      if name == "" { continue; }
      var decoded := Decode(value);
      if decoded.Some? { cookies := cookies[name := decoded.value]; }
    }
    assert pairs[..|segments|] == pairs;
  }

  function RequiredString(cookies: map<string, string>, name: string): Option<string> {
    if name in cookies && Trim(cookies[name]) != "" then Some(Trim(cookies[name])) else None
  }

  function SessionIn(cookies: map<string, string>): StoredSession {
    var shopId := RequiredString(cookies, SHOP);
    var deviceId := RequiredString(cookies, DEVICE);
    var refreshToken := RequiredString(cookies, REFRESH);
    if shopId.None? || deviceId.None? || refreshToken.None? || !IsUuid(shopId.value) || !IsUuid(deviceId.value) then NOT_ENROLLED
    else
      var accessToken := RequiredString(cookies, ACCESS);
      if accessToken.None? then REFRESHABLE(shopId.value, deviceId.value, refreshToken.value)
      else USABLE(Session(shopId.value, deviceId.value, accessToken.value, refreshToken.value))
  }

  /** What the server reads from a cookie header. */
  function ReadHeader(raw: string): StoredSession {
    SessionIn(Cookies(Split(raw, ';')))
  }

  method ReadDeviceSession(raw: string) returns (stored: StoredSession)
    ensures stored == ReadHeader(raw)
  {
    var cookies := ParseCookies(raw);
    stored := SessionIn(cookies);
  }

  // ---- what the server reads of a jar --------------------------------------------------------

  function Segment(jar: seq<Kept>, i: nat): string
    requires i < |jar|
  {
    (if i == 0 then "" else " ") + Pair(jar[i].name, jar[i].raw)
  }

  function Segments(jar: seq<Kept>): seq<string> {
    seq(|jar|, i requires 0 <= i < |jar| => Segment(jar, i))
  }

  lemma LastSegment(jar: seq<Kept>)
    requires jar != []
    ensures var n := |jar| - 1;
      Segments(jar) == Segments(jar[..n]) + [(if n == 0 then "" else " ") + Pair(jar[n].name, jar[n].raw)]
  {
  }

  lemma {:induction false} HeaderSplits(jar: seq<Kept>)
    requires jar != [] && forall k :: k in jar ==> Plain(k)
    ensures Split(CookieHeader(jar), ';') == Segments(jar)
  {
    var n := |jar| - 1;
    assert Plain(jar[n]);
    var last := Pair(jar[n].name, jar[n].raw);
    LastSegment(jar);
    if n == 0 {
      SplitNone(last, ';');
      assert "" + last == last;
    } else {
      HeaderSplits(jar[..n]);
      var head := CookieHeader(jar[..n]);
      assert head + "; " + last == head + [';'] + (" " + last);
      SplitOne(head, " " + last, ';');
    }
  }

  lemma SegmentIsRead(k: Kept, lead: string)
    requires Plain(k) && (lead == "" || lead == " ")
    ensures CookieOf(lead + Pair(k.name, k.raw)) == Meaning(k)
  {
    var segment := lead + Pair(k.name, k.raw);
    var at := |lead| + |k.name|;
    assert segment[..at] == lead + k.name && segment[at + 1..] == k.raw;
    IndexIs(segment, '=', at);
    TrimmedStays(k.name);
    if lead == " " {
      assert (lead + k.name)[1..] == k.name;
      assert TrimStart(lead + k.name) == TrimStart(k.name);
    } else {
      assert lead + k.name == k.name;
    }
  }

  /** What a cookie assigns. */
  function Meaning(k: Kept): Option<(string, string)> {
    var value := Decode(Trim(k.raw));
    if value.Some? then Some((k.name, value.value)) else None
  }

  /** The value of the last assignment to a name. */
  function LastOf(pairs: seq<Option<(string, string)>>, name: string): Option<string> {
    if pairs == [] then None
    else
      var last := pairs[|pairs| - 1];
      if last.Some? && last.value.0 == name then Some(last.value.1) else LastOf(pairs[..|pairs| - 1], name)
  }

  lemma {:induction false} AssignedIsLast(pairs: seq<Option<(string, string)>>, name: string)
    ensures Lookup(Assigned(pairs), name) == LastOf(pairs, name)
  {
    if pairs != [] { AssignedIsLast(pairs[..|pairs| - 1], name); }
  }

  /** The decoded value of the last cookie of this name whose value is well formed. */
  function LastValue(jar: seq<Kept>, name: string): Option<string> {
    LastOf(Sorting.Map(Meaning, jar), name)
  }

  lemma SegmentMeans(jar: seq<Kept>, i: nat)
    requires i < |jar| && forall k :: k in jar ==> Plain(k)
    ensures CookieOf(Segments(jar)[i]) == Meaning(jar[i])
  {
    assert Plain(jar[i]);
    SegmentIsRead(jar[i], if i == 0 then "" else " ");
    assert Segments(jar)[i] == (if i == 0 then "" else " ") + Pair(jar[i].name, jar[i].raw);
  }

  lemma SegmentsMean(jar: seq<Kept>)
    requires forall k :: k in jar ==> Plain(k)
    ensures Sorting.Map(CookieOf, Segments(jar)) == Sorting.Map(Meaning, jar)
  {
    forall i | 0 <= i < |jar| ensures CookieOf(Segments(jar)[i]) == Meaning(jar[i]) { SegmentMeans(jar, i); }
  }

  /**
    The server reads a cookie header faithfully: each name has the decoded value of its last well
    formed cookie, malformed values are ignored, and no other name is there.
   */
  lemma JarIsRead(jar: seq<Kept>)
    requires forall k :: k in jar ==> Plain(k)
    ensures forall name :: Lookup(Cookies(Split(CookieHeader(jar), ';')), name) == LastValue(jar, name)
  {
    forall name ensures Lookup(Cookies(Split(CookieHeader(jar), ';')), name) == LastValue(jar, name) {
      AssignedIsLast(Sorting.Map(Meaning, jar), name);
      if jar == [] {
        var pairs := Sorting.Map(CookieOf, [""]);
        assert pairs == [None] && pairs[..0] == [];
      } else {
        HeaderSplits(jar);
        SegmentsMean(jar);
      }
    }
  }

  /** The last well formed cookie of the name gives this text, which is not blank. */
  predicate Gives(jar: seq<Kept>, name: string, text: string) {
    var last := LastValue(jar, name);
    last.Some? && text == Trim(last.value) && text != ""
  }

  /**
    What the session of any jar is: usable exactly with both UUIDs and both tokens, to be refreshed
    exactly if only the access token is missing.
   */
  lemma JarSession(jar: seq<Kept>)
    requires forall k :: k in jar ==> Plain(k)
    ensures
      var stored := ReadHeader(CookieHeader(jar));
      && (forall shop, device, access, refresh :: stored == USABLE(Session(shop, device, access, refresh)) <==>
            && Gives(jar, "tux_ops_shop", shop) && Gives(jar, "tux_ops_device", device) && IsUuid(shop) && IsUuid(device)
            && Gives(jar, "tux_ops_access", access) && Gives(jar, "tux_ops_refresh", refresh))
      && (forall shop, device, refresh :: stored == REFRESHABLE(shop, device, refresh) <==>
            && Gives(jar, "tux_ops_shop", shop) && Gives(jar, "tux_ops_device", device) && IsUuid(shop) && IsUuid(device)
            && (forall access :: !Gives(jar, "tux_ops_access", access)) && Gives(jar, "tux_ops_refresh", refresh))
  {
    var cookies := Cookies(Split(CookieHeader(jar), ';'));
    JarIsRead(jar);
    forall name, text ensures Gives(jar, name, text) <==> RequiredString(cookies, name) == Some(text) {
      assert Lookup(cookies, name) == LastValue(jar, name);
    }
    var access := RequiredString(cookies, ACCESS);
    if access.Some? { assert Gives(jar, ACCESS, access.value); }
  }

  lemma {:induction false} LastOfDistinct(jar: seq<Kept>, name: string)
    requires PlainJar(jar)
    ensures forall k :: k in jar && k.name == name ==> LastValue(jar, name) == Decode(Trim(k.raw))
    ensures (forall k :: k in jar ==> k.name != name) ==> LastValue(jar, name) == None
  {
    if jar != [] {
      var init, last := jar[..|jar| - 1], jar[|jar| - 1];
      LastOfDistinct(init, name);
      assert jar == init + [last];
      assert Sorting.Map(Meaning, jar)[..|jar| - 1] == Sorting.Map(Meaning, init);
      assert last.name == name ==> forall k :: k in init ==> k.name != name;
    }
  }

  /** With distinct names every cookie is read, in any order of the jar. */
  lemma DistinctJarIsRead(jar: seq<Kept>)
    requires PlainJar(jar)
    ensures var cookies := Cookies(Split(CookieHeader(jar), ';'));
      && (forall k :: k in jar ==> Lookup(cookies, k.name) == Decode(Trim(k.raw)))
      && (forall name :: (forall k :: k in jar ==> k.name != name) ==> name !in cookies)
  {
    var cookies := Cookies(Split(CookieHeader(jar), ';'));
    JarIsRead(jar);
    forall k | k in jar ensures Lookup(cookies, k.name) == Decode(Trim(k.raw)) { LastOfDistinct(jar, k.name); }
    forall name | forall k :: k in jar ==> k.name != name ensures name !in cookies {
      LastOfDistinct(jar, name);
      assert Lookup(cookies, name) == None;
    }
  }

  // ---- the round trip ------------------------------------------------------------------------

  predicate GoodToken(token: string) {
    token != "" && IsTrimmed(token)
  }

  predicate GoodSession(session: Session) {
    IsUuid(session.shopId) && IsUuid(session.deviceId) && GoodToken(session.accessToken) && GoodToken(session.refreshToken)
  }

  predicate IsSessionName(name: string) {
    name == ACCESS || name == REFRESH || name == SHOP || name == DEVICE
  }

  lemma SessionNameIsPlain(name: string, raw: string)
    requires IsSessionName(name) && ';' !in raw
    ensures Plain(Kept(name, raw))
  {
  }

  /** The pair that the user agent keeps of a printed cookie. */
  lemma PrintedIsKept(name: string, value: string, maxAge: nat)
    requires IsSessionName(name)
    ensures KeptOf(Cookie(name, value, maxAge)) == Some(Kept(name, Encode(value)))
    ensures KeptOf(ClearCookie(name)) == Some(Kept(name, ""))
  {
    EncodedIsPlain(value);
    SessionNameIsPlain(name, Encode(value));
    SessionNameIsPlain(name, "");
    assert IsTrimmed(Encode(value));
    KeptIsPrinted(name, Encode(value), maxAge);
    KeptIsPrinted(name, "", 0);
  }

  /** `jar` holds what the user agent keeps of this `Set-Cookie` value. */
  predicate Holds(jar: seq<Kept>, setCookie: string) {
    KeptOf(setCookie).Some? && KeptOf(setCookie).value in jar
  }

  predicate HoldsAll(jar: seq<Kept>, setCookies: seq<string>) {
    forall c :: c in setCookies ==> Holds(jar, c)
  }

  lemma HeldIsRead(jar: seq<Kept>, name: string, value: string, maxAge: nat)
    requires PlainJar(jar) && IsSessionName(name) && Holds(jar, Cookie(name, value, maxAge))
    ensures RequiredString(Cookies(Split(CookieHeader(jar), ';')), name) == NonEmpty(Trim(value))
    ensures NonEmpty(Trim(value)) == Some(value) <==> GoodToken(value)
  {
    PrintedIsKept(name, value, maxAge);
    DistinctJarIsRead(jar);
    EncodedIsPlain(value);
    TrimmedStays(Encode(value));
    DecodeEncode(value);
    TrimFixes(value);
    assert Lookup(Cookies(Split(CookieHeader(jar), ';')), name) == Some(value);
  }

  function NonEmpty(s: string): Option<string> {
    if s == "" then None else Some(s)
  }

  lemma StableCookiesAreRead(session: Session, accessMaxAge: nat, jar: seq<Kept>)
    requires PlainJar(jar)
    requires HoldsAll(jar, PrintedCookies(session, accessMaxAge)[1..])
    ensures var cookies := Cookies(Split(CookieHeader(jar), ';'));
      && RequiredString(cookies, REFRESH) == NonEmpty(Trim(session.refreshToken))
      && RequiredString(cookies, SHOP) == NonEmpty(Trim(session.shopId))
      && RequiredString(cookies, DEVICE) == NonEmpty(Trim(session.deviceId))
  {
    var printed := PrintedCookies(session, accessMaxAge)[1..];
    assert printed[0] in printed && printed[1] in printed && printed[2] in printed;
    HeldIsRead(jar, REFRESH, session.refreshToken, MAX_AGE_SECONDS);
    HeldIsRead(jar, SHOP, session.shopId, MAX_AGE_SECONDS);
    HeldIsRead(jar, DEVICE, session.deviceId, MAX_AGE_SECONDS);
  }

  lemma AccessCookieIsHeld(session: Session, accessMaxAge: nat, jar: seq<Kept>)
    requires HoldsAll(jar, PrintedCookies(session, accessMaxAge))
    ensures Holds(jar, Cookie(ACCESS, session.accessToken, accessMaxAge))
    ensures HoldsAll(jar, PrintedCookies(session, accessMaxAge)[1..])
  {
    var printed := PrintedCookies(session, accessMaxAge);
    assert printed[0] in printed;
    forall c | c in printed[1..] ensures c in printed {}
  }

  lemma GoodTokenIsItself(value: string)
    ensures NonEmpty(Trim(value)) == Some(value) <==> GoodToken(value)
    ensures IsUuid(value) ==> GoodToken(value)
  {
    TrimFixes(value);
  }

  /**
    A printed session comes back, in whatever order and among whatever other cookies, exactly if
    its IDs are UUIDs and its tokens are non-empty and trimmed.
   */
  lemma SessionRoundTrip(session: Session, accessMaxAge: nat, jar: seq<Kept>)
    requires PlainJar(jar)
    requires HoldsAll(jar, PrintedCookies(session, accessMaxAge))
    ensures ReadHeader(CookieHeader(jar)) == USABLE(session) <==> GoodSession(session)
  {
    AccessCookieIsHeld(session, accessMaxAge, jar);
    HeldIsRead(jar, ACCESS, session.accessToken, accessMaxAge);
    StableCookiesAreRead(session, accessMaxAge, jar);
    GoodTokenIsItself(session.accessToken);
    GoodTokenIsItself(session.refreshToken);
    GoodTokenIsItself(session.shopId);
    GoodTokenIsItself(session.deviceId);
  }

  lemma AbsentIsNotRead(jar: seq<Kept>, name: string)
    requires PlainJar(jar) && forall k :: k in jar ==> k.name != name
    ensures RequiredString(Cookies(Split(CookieHeader(jar), ';')), name) == None
  {
    DistinctJarIsRead(jar);
  }

  /** Once the access cookie is gone, the same session can still be refreshed. */
  lemma SessionWithoutAccess(session: Session, accessMaxAge: nat, jar: seq<Kept>)
    requires GoodSession(session) && PlainJar(jar) && forall k :: k in jar ==> k.name != ACCESS
    requires HoldsAll(jar, PrintedCookies(session, accessMaxAge)[1..])
    ensures ReadHeader(CookieHeader(jar)) == REFRESHABLE(session.shopId, session.deviceId, session.refreshToken)
  {
    StableCookiesAreRead(session, accessMaxAge, jar);
    GoodTokenIsItself(session.refreshToken);
    GoodTokenIsItself(session.shopId);
    GoodTokenIsItself(session.deviceId);
    AbsentIsNotRead(jar, ACCESS);
  }

  lemma ClearedIsNotRead(jar: seq<Kept>, name: string)
    requires PlainJar(jar) && IsSessionName(name) && Holds(jar, ClearCookie(name))
    ensures RequiredString(Cookies(Split(CookieHeader(jar), ';')), name) == None
  {
    PrintedIsKept(name, "", 0);
    DistinctJarIsRead(jar);
    assert Trim("") == "" && Decode("") == Some("");
    assert Lookup(Cookies(Split(CookieHeader(jar), ';')), name) == Some("");
  }

  /** A jar that kept a cleared shop cookie, or none, is not enrolled. */
  lemma ClearedSession(jar: seq<Kept>)
    requires PlainJar(jar) && (Holds(jar, ClearCookie(SHOP)) || forall k :: k in jar ==> k.name != SHOP)
    ensures ReadHeader(CookieHeader(jar)) == NOT_ENROLLED
  {
    if Holds(jar, ClearCookie(SHOP)) { ClearedIsNotRead(jar, SHOP); } else { AbsentIsNotRead(jar, SHOP); }
  }
}
