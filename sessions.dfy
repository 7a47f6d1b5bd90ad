/**
 * The OAuth 2.0 session held by a FamilyGraph client: the access token
 * (`mAccessToken`, null when there is no session) and its absolute expiry in
 * milliseconds (`mAccessExpires`, 0 when the token never expires).
 * The clock is the parameter `now`.
 */
module Sessions {
  import opened Wrappers
  import opened JavaLang

  datatype Session = Session(token: Option<string>, expires: Long)

  /** The state of a new client, and the state logout leaves behind. */
  const NoSession: Session := Session(None, 0)

  /** `isSessionValid()`: a token is held, and it either never expires or
      expires strictly after `now`. */
  predicate IsValid(s: Session, now: Long) {
    s.token.Some? && (s.expires == 0 || now < s.expires)
  }

  /** The new expiry after `setAccessExpiresIn(expiresIn)`: a null argument
      keeps the old expiry, the exact string "0" means "never expires", any other
      string is a lifetime in seconds that `Long.parseLong` must accept (or a
      NumberFormatException is thrown) and is added, in milliseconds and with
      `long` wrap-around, to the current time. */
  function ExpiresInResult(expires: Long, expiresIn: Option<string>, now: Long): (r: Result<Long, Fault>)
    ensures r.Failure? ==> r.error == NumberFormat
  {
    match expiresIn
    case None => Success(expires)
    case Some(s) =>
      if s == "0" then Success(0)
      else
        match ParseLong(s)
        case None => Failure(NumberFormat)
        case Some(n) => Success(Wrap64(now + Wrap64(n * 1000)))
  }

  /** Without a token there is no session, whatever the expiry and the clock. */
  lemma NoTokenNeverValid(s: Session, now: Long)
    requires s.token.None?
    ensures !IsValid(s, now)
  {
  }

  /** Logout's state is invalid at every instant. */
  lemma NoSessionNeverValid()
    ensures forall now: Long :: !IsValid(NoSession, now)
  {
  }

  /** A token with expiry 0 is valid at every instant. */
  lemma ZeroExpiryAlwaysValid(s: Session, now: Long)
    requires s.token.Some? && s.expires == 0
    ensures IsValid(s, now)
  {
  }

  /** With a real expiry the comparison is strict: the session is valid exactly
      before the expiry instant, and already invalid at it. */
  lemma ExpiryIsStrict(s: Session, now: Long)
    requires s.token.Some? && s.expires != 0
    ensures IsValid(s, now) <==> now < s.expires
    ensures !IsValid(s, s.expires)
  {
  }

  /** Once a session has expired it stays expired as the clock moves on. */
  lemma ExpiredStaysExpired(s: Session, earlier: Long, later: Long)
    requires earlier <= later && !IsValid(s, earlier)
    ensures !IsValid(s, later)
  {
  }

  /** `setAccessExpiresIn(null)` keeps the expiry, and `"0"` clears it. */
  lemma ExpiresInNullOrZero(expires: Long, now: Long)
    ensures ExpiresInResult(expires, None, now) == Success(expires)
    ensures ExpiresInResult(expires, Some("0"), now) == Success(0)
  {
  }

  /** A string `Long.parseLong` rejects throws, and the expiry is not written. */
  lemma ExpiresInRejects(expires: Long, s: string, now: Long)
    requires s != "0" && ParseLong(s).None?
    ensures ExpiresInResult(expires, Some(s), now) == Failure(NumberFormat)
  {
  }

  /** A numeric lifetime of n seconds expires n * 1000 ms after `now`, as long as
      the arithmetic stays inside the `long` range. */
  lemma ExpiresInMillis(expires: Long, s: string, n: Long, now: Long)
    requires s != "0" && ParseLong(s) == Some(n)
    requires IsLong(n * 1000) && IsLong(now + n * 1000)
    ensures ExpiresInResult(expires, Some(s), now) == Success(now + n * 1000)
  {
  }

  /** The server's `expires_in`, written as Java writes a `long`, is read back
      as that many seconds: 0 means no expiry and anything else is
      now + n * 1000 (with `long` wrap-around). */
  lemma ExpiresInOfLong(expires: Long, n: Long, now: Long)
    ensures n == 0 ==> ExpiresInResult(expires, Some(LongToString(n)), now) == Success(0)
    ensures n != 0 ==> ExpiresInResult(expires, Some(LongToString(n)), now)
                       == Success(Wrap64(now + Wrap64(n * 1000)))
  {
    LongToStringZero(n);
    ParseLongToString(n);
  }

  /** A token with a positive lifetime that does not overflow is valid at the
      instant it is stored, however the number is written ("60", "+60",
      "060", ...). */
  lemma PositiveLifetimeValid(token: string, expires: Long, s: string, n: Long, now: Long)
    requires ParseLong(s) == Some(n) && n > 0
    requires IsLong(n * 1000) && IsLong(now + n * 1000)
    ensures ExpiresInResult(expires, Some(s), now) == Success(now + n * 1000)
    ensures IsValid(Session(Some(token), now + n * 1000), now)
  {
    ParseLongZero();
    ExpiresInMillis(expires, s, n, now);
  }

  /** A lifetime that parses to zero or less but is not the exact string "0"
      ("00", "-0", "-60", ...) gives an expiry at or before `now`, so the token
      is already invalid when it is stored. This needs both side conditions:
      when now + n * 1000 overflows the expiry wraps into the far future
      (`NegativeLifetimeWrapsToFuture`), and when it is exactly 0 the expiry
      means "never expires". */
  lemma NonPositiveLifetimeInvalid(token: string, expires: Long, s: string, n: Long, now: Long)
    requires s != "0" && ParseLong(s) == Some(n) && n <= 0
    requires IsLong(n * 1000) && IsLong(now + n * 1000) && now + n * 1000 != 0
    ensures ExpiresInResult(expires, Some(s), now).Success?
    ensures !IsValid(Session(Some(token), ExpiresInResult(expires, Some(s), now).value), now)
  {
    ExpiresInMillis(expires, s, n, now);
  }

  /** A negative lifetime whose conversion to milliseconds overflows below
      `Long.MIN_VALUE` and wraps exactly once (n * 1000 + 2^64 > 0) gives a
      positive millisecond count: the token, though its lifetime is negative,
      is valid at the instant it is stored. How long it stays valid depends on
      n: n = -9223374036854776 at now = 1700000000000 gives the expiry
      9223371736854775616, centuries ahead, while n = -18446744073709551 gives
      now + 616, under a second. A product that wraps more than once can land
      anywhere, even on now itself (`SmallestLifetimeExpiresNow`). */
  lemma NegativeLifetimeWrapsToFuture(token: string, expires: Long, s: string, n: Long, now: Long)
    requires ParseLong(s) == Some(n) && now >= 0
    requires n * 1000 < MinLong && n * 1000 + 0x1_0000_0000_0000_0000 > 0
    requires IsLong(now + n * 1000 + 0x1_0000_0000_0000_0000)
    ensures n < 0
    ensures ExpiresInResult(expires, Some(s), now)
            == Success(now + n * 1000 + 0x1_0000_0000_0000_0000)
    ensures IsValid(Session(Some(token), now + n * 1000 + 0x1_0000_0000_0000_0000), now)
  {
    ParseLongZero();
  }

  /** `Long.MIN_VALUE * 1000L` wraps around to 0: the product is a multiple of
      2^64. */
  lemma MinLongMillisWraps()
    ensures Wrap64(MinLong * 1000) == 0
  {
    var x := MinLong * 1000 - MinLong;
    assert x == -500 * 0x1_0000_0000_0000_0000 + (0 - MinLong);
    assert x % 0x1_0000_0000_0000_0000 == 0 - MinLong;
  }

  /** A lifetime of `Long.MIN_VALUE` seconds wraps to 0 milliseconds, so the
      expiry is `now` itself and the session is invalid at once (for any clock
      reading but 0, where the expiry would mean "never expires"). */
  lemma SmallestLifetimeExpiresNow(token: string, expires: Long, s: string, now: Long)
    requires ParseLong(s) == Some(MinLong) && now != 0
    ensures ExpiresInResult(expires, Some(s), now) == Success(now)
    ensures !IsValid(Session(Some(token), now), now)
  {
    ParseLongZero();
    MinLongMillisWraps();
  }

  /** `Long.MAX_VALUE * 1000L` wraps around to -1000. */
  lemma MaxLongMillisWraps()
    ensures Wrap64(MaxLong * 1000) == -1000
  {
    var x := MaxLong * 1000 - MinLong;
    assert x == 500 * 0x1_0000_0000_0000_0000 + (MaxLong - 999);
    assert x % 0x1_0000_0000_0000_0000 == MaxLong - 999;
  }

  /** A lifetime of `Long.MAX_VALUE` seconds overflows when converted to
      milliseconds and yields an expiry one second in the past: the session is
      invalid at once (for any clock reading past the first second after the
      epoch; at exactly 1000 ms the expiry wraps to 0, "never expires"). */
  lemma LargestLifetimeWrapsToPast(token: string, expires: Long, s: string, now: Long)
    requires s != "0" && ParseLong(s) == Some(MaxLong) && now > 1000
    ensures ExpiresInResult(expires, Some(s), now) == Success(now - 1000)
    ensures !IsValid(Session(Some(token), now - 1000), now)
  {
    MaxLongMillisWraps();
  }
}
