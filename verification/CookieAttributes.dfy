/** The attributes of a printed session cookie, as the user agent reads them, and the response that sets the cookies. */
module CookieAttributes {
  import opened Wrappers
  import opened TextRules
  import opened PercentEncoding
  import opened SessionCookies
  import Sorting

  /** Section 5.2.2 of RFC 6265: a lifetime is a sequence of digits. */
  function Number(digits: string): Option<nat> {
    if digits == "" then None
    else
      var n := |digits| - 1;
      var before := if n == 0 then Some(0) else Number(digits[..n]);
      if before.None? || !('0' <= digits[n] <= '9') then None
      else Some(10 * before.value + (digits[n] as int - '0' as int))
  }

  lemma {:induction false} DecimalIsRead(n: nat)
    ensures Number(Decimal(n)) == Some(n)
  {
    var digit := "0123456789"[n % 10];
    assert digit as int - '0' as int == n % 10;
    if n < 10 {
      assert Decimal(n) == [digit];
    } else {
      DecimalIsRead(n / 10);
      assert Decimal(n)[..|Decimal(n)| - 1] == Decimal(n / 10);
    }
  }

  /** Section 5.2 of RFC 6265: what follows the first semicolon, up to each further one, trimmed. */
  function AttributesOf(setCookie: string): seq<string> {
    Sorting.Map(Trim, Split(setCookie, ';')[1..])
  }

  /** Sent back to the API alone, over TLS, from the own site, out of reach of scripts, and for so many seconds. */
  predicate Guarded(setCookie: string, seconds: nat) {
    var attributes := AttributesOf(setCookie);
    && |attributes| == 5 && attributes[0] == "Path=/api"
    && "Max-Age=" <= attributes[1] && Number(attributes[1][8..]) == Some(seconds)
    && attributes[2] == "HttpOnly" && attributes[3] == "Secure" && attributes[4] == "SameSite=Strict"
  }

  lemma {:induction false} DigitsOnly(n: nat)
    ensures forall c :: c in Decimal(n) ==> '0' <= c <= '9'
  {
    if n >= 10 { DigitsOnly(n / 10); }
  }

  lemma LeadIsTrimmed(s: string)
    requires s != "" && IsTrimmed(s)
    ensures Trim(" " + s) == s
  {
    assert (" " + s)[1..] == s;
    assert TrimStart(" " + s) == TrimStart(s);
    TrimmedStays(s);
  }

  lemma NextAttribute(text: string, parts: seq<string>, s: string)
    requires Split(text, ';') == parts && s != "" && IsTrimmed(s) && ';' !in s
    ensures Split(text + "; " + s, ';') == parts + [" " + s] && Trim(" " + s) == s
  {
    SplitOne(text, " " + s, ';');
    assert text + "; " + s == text + [';'] + (" " + s);
    LeadIsTrimmed(s);
  }

  lemma AgeIsPlain(seconds: nat)
    ensures var age := "Max-Age=" + Decimal(seconds); ';' !in age && IsTrimmed(age) && age[8..] == Decimal(seconds)
  {
    DigitsOnly(seconds);
    var digits := Decimal(seconds);
    assert digits[|digits| - 1] in digits;
  }

  lemma Joined(pair: string, gap: string, path: string, name: string, digits: string, a: string, b: string, c: string)
    ensures pair + (gap + path + gap + name + digits + (gap + a + gap + b + gap + c))
         == pair + gap + path + gap + (name + digits) + gap + a + gap + b + gap + c
  {
    var tail := gap + a + gap + b + gap + c;
    assert gap + path + gap + name + digits == gap + path + gap + (name + digits);
    assert pair + (gap + path + gap + (name + digits) + tail) == pair + gap + path + gap + (name + digits) + tail;
  }

  /** The five attributes, one after the other. */
  lemma AttributesAre(pair: string, seconds: nat)
    ensures pair + Attributes(seconds)
         == pair + "; " + "Path=/api" + "; " + ("Max-Age=" + Decimal(seconds)) + "; " + "HttpOnly" + "; " + "Secure" + "; " + "SameSite=Strict"
  {
    assert "; Path=/api; Max-Age=" == "; " + "Path=/api" + "; " + "Max-Age=";
    assert "; HttpOnly; Secure; SameSite=Strict" == "; " + "HttpOnly" + "; " + "Secure" + "; " + "SameSite=Strict";
    Joined(pair, "; ", "Path=/api", "Max-Age=", Decimal(seconds), "HttpOnly", "Secure", "SameSite=Strict");
  }

  /** The parts of a printed cookie. */
  lemma PrintedParts(pair: string, seconds: nat)
    requires ';' !in pair
    ensures Split(pair + Attributes(seconds), ';')
         == [pair] + [" " + "Path=/api"] + [" " + ("Max-Age=" + Decimal(seconds))] + [" " + "HttpOnly"] + [" " + "Secure"] + [" " + "SameSite=Strict"]
  {
    var age := "Max-Age=" + Decimal(seconds);
    AttributesAre(pair, seconds);
    AgeIsPlain(seconds);
    SplitNone(pair, ';');
    var t1, p1 := pair + "; " + "Path=/api", [pair] + [" " + "Path=/api"];
    NextAttribute(pair, [pair], "Path=/api");
    var t2, p2 := t1 + "; " + age, p1 + [" " + age];
    NextAttribute(t1, p1, age);
    var t3, p3 := t2 + "; " + "HttpOnly", p2 + [" " + "HttpOnly"];
    NextAttribute(t2, p2, "HttpOnly");
    var t4, p4 := t3 + "; " + "Secure", p3 + [" " + "Secure"];
    NextAttribute(t3, p3, "Secure");
    NextAttribute(t4, p4, "SameSite=Strict");
  }

  /** Every cookie is printed with the same five attributes, and its lifetime is the one asked for. */
  lemma PrintedIsGuarded(pair: string, seconds: nat)
    requires ';' !in pair
    ensures Guarded(pair + Attributes(seconds), seconds)
  {
    var age := "Max-Age=" + Decimal(seconds);
    PrintedParts(pair, seconds);
    AgeIsPlain(seconds);
    DecimalIsRead(seconds);
    LeadIsTrimmed("Path=/api");
    LeadIsTrimmed(age);
    LeadIsTrimmed("HttpOnly");
    LeadIsTrimmed("Secure");
    LeadIsTrimmed("SameSite=Strict");
    var attributes := AttributesOf(pair + Attributes(seconds));
    assert |attributes| == 5 && attributes[1] == age;
  }

  lemma CookieIsGuarded(name: string, value: string, seconds: nat)
    requires IsSessionName(name)
    ensures Guarded(Cookie(name, value, seconds), seconds) && Guarded(ClearCookie(name), 0)
  {
    EncodedIsPlain(value);
    SessionNameIsPlain(name, "");
    PrintedIsGuarded(Pair(name, Encode(value)), seconds);
    PrintedIsGuarded(Pair(name, ""), 0);
  }

  predicate AllGuarded(setCookies: seq<string>, first: nat, others: nat) {
    |setCookies| == 4 && Guarded(setCookies[0], first) && forall i :: 1 <= i < 4 ==> Guarded(setCookies[i], others)
  }

  lemma FourGuarded(a: string, b: string, c: string, d: string, first: nat, others: nat)
    requires Guarded(a, first) && Guarded(b, others) && Guarded(c, others) && Guarded(d, others)
    ensures AllGuarded([a, b, c, d], first, others)
  {
  }

  /** How a session is printed: the access cookie for its own time, the three others for thirty days. */
  lemma SessionIsGuarded(session: Session, accessMaxAge: nat)
    ensures AllGuarded(PrintedCookies(session, accessMaxAge), accessMaxAge, 2_592_000)
  {
    CookieIsGuarded(ACCESS, session.accessToken, accessMaxAge);
    CookieIsGuarded(REFRESH, session.refreshToken, MAX_AGE_SECONDS);
    CookieIsGuarded(SHOP, session.shopId, MAX_AGE_SECONDS);
    CookieIsGuarded(DEVICE, session.deviceId, MAX_AGE_SECONDS);
    FourGuarded(Cookie(ACCESS, session.accessToken, accessMaxAge), Cookie(REFRESH, session.refreshToken, MAX_AGE_SECONDS),
                Cookie(SHOP, session.shopId, MAX_AGE_SECONDS), Cookie(DEVICE, session.deviceId, MAX_AGE_SECONDS),
                accessMaxAge, 2_592_000);
  }

  function ClearedCookies(): seq<string> {
    [ClearCookie(ACCESS), ClearCookie(REFRESH), ClearCookie(SHOP), ClearCookie(DEVICE)]
  }

  /** Clearing ends the life of all four cookies, and what a jar then holds is not enrolled. */
  lemma ClearedCookiesEndSession()
    ensures AllGuarded(ClearedCookies(), 0, 0)
    ensures forall jar :: PlainJar(jar) && HoldsAll(jar, ClearedCookies()) ==> ReadHeader(CookieHeader(jar)) == NOT_ENROLLED
  {
    CookieIsGuarded(ACCESS, "", 0);
    CookieIsGuarded(REFRESH, "", 0);
    CookieIsGuarded(SHOP, "", 0);
    CookieIsGuarded(DEVICE, "", 0);
    FourGuarded(ClearCookie(ACCESS), ClearCookie(REFRESH), ClearCookie(SHOP), ClearCookie(DEVICE), 0, 0);
    forall jar | PlainJar(jar) && HoldsAll(jar, ClearedCookies()) ensures ReadHeader(CookieHeader(jar)) == NOT_ENROLLED {
      assert ClearedCookies()[2] in ClearedCookies();
      ClearedSession(jar);
    }
  }

  // ---- the response --------------------------------------------------------------------------

  class GatewayResponse {
    var setCookie: seq<string>

    constructor ()
      ensures setCookie == []
    {
      setCookie := [];
    }

    /** A jar that kept what this sets reads back as the session, exactly if the session is a good one. */
    method PersistSession(session: Session, expiresAt: Option<int>, now: int)
      modifies this
      ensures setCookie == PrintedCookies(session, AccessMaxAge(expiresAt, now))
      ensures forall jar :: PlainJar(jar) && HoldsAll(jar, setCookie) ==>
        (ReadHeader(CookieHeader(jar)) == USABLE(session) <==> GoodSession(session))
      ensures AllGuarded(setCookie, AccessMaxAge(expiresAt, now), 2_592_000)
    {
      SessionIsGuarded(session, AccessMaxAge(expiresAt, now));
      forall jar | PlainJar(jar) && HoldsAll(jar, PrintedCookies(session, AccessMaxAge(expiresAt, now)))
        ensures ReadHeader(CookieHeader(jar)) == USABLE(session) <==> GoodSession(session)
      {
        SessionRoundTrip(session, AccessMaxAge(expiresAt, now), jar);
      }
      setCookie := PrintedCookies(session, AccessMaxAge(expiresAt, now));
    }

    /** A jar that kept what this sets is not enrolled, whatever else it holds. */
    method ClearDeviceSession()
      modifies this
      ensures setCookie == ClearedCookies() && AllGuarded(setCookie, 0, 0)
      ensures forall jar :: PlainJar(jar) && HoldsAll(jar, setCookie) ==> ReadHeader(CookieHeader(jar)) == NOT_ENROLLED
    {
      ClearedCookiesEndSession();
      setCookie := [ClearCookie(ACCESS), ClearCookie(REFRESH), ClearCookie(SHOP), ClearCookie(DEVICE)];
    }
  }
}
