/** Claims, signed tokens and stored refresh-token records. A signed token is an
    ideal encoding: it determines its algorithm, key and claims, and parsing
    succeeds only under the key that signed it. */
module Tokens {
  import opened Common

  /** The TokenType claim and the signing algorithm are strings; these are the ones that matter. */
  datatype Kind = AccessKind | RefreshKind | OtherKind(name: string)

  datatype Algorithm = HS256 | OtherAlgorithm(name: string)

  datatype Claims = Claims(
    subject: string,
    expiresAt: Time,
    issuedAt: Time,
    id: nat,
    tokenType: Kind)

  datatype Jwt = Signed(alg: Algorithm, secret: string, claims: Claims) | Malformed(text: string)

  datatype Error =
    | ParseFailed
    | WrongType
    | NotFound
    | AlreadyExists
    | Expired
    | Revoked
    | Transport

  /** A refresh-token record as the stores keep it. */
  datatype Token = Token(
    userID: string,
    token: Jwt,
    revoked: bool,
    createdAt: Time,
    expiresAt: Time)

  datatype Config = Config(secret: string, accessTTL: Time, refreshTTL: Time)

  /** The instants read from the clock while a token pair and its record are built. */
  datatype Readings = Readings(
    accessExp: Time, accessIat: Time,
    refreshExp: Time, refreshIat: Time,
    created: Time, expires: Time)
  {
    /** The readings were taken in program order, no earlier than `lo`, no later than `hi`. */
    predicate Between(lo: Time, hi: Time) {
      lo <= accessExp <= accessIat <= refreshExp <= refreshIat <= created <= expires <= hi
    }
  }

  datatype Pair = Pair(access: Jwt, refresh: Jwt, refreshTTL: int)

  /** A numeric date keeps whole seconds: fractions are dropped. */
  function NumericDate(t: Time): (d: Time)
    ensures d % SECOND == 0 && d <= t < d + SECOND
  {
    t - t % SECOND
  }

  function Sign(cfg: Config, user: string, kind: Kind, exp: Time, iat: Time, id: nat): Jwt {
    Signed(HS256, cfg.secret, Claims(user, NumericDate(exp), NumericDate(iat), id, kind))
  }

  function AccessToken(cfg: Config, user: string, r: Readings, id: nat): Jwt {
    Sign(cfg, user, AccessKind, r.accessExp + cfg.accessTTL, r.accessIat, id)
  }

  function RefreshToken(cfg: Config, user: string, r: Readings, id: nat): Jwt {
    Sign(cfg, user, RefreshKind, r.refreshExp + cfg.refreshTTL, r.refreshIat, id)
  }

  function NewRefreshToken(cfg: Config, user: string, token: Jwt, r: Readings): Token {
    Token(user, token, false, r.created, r.expires + cfg.refreshTTL)
  }

  /** Signature, algorithm, expiry and issue time, checked at the instant `now`. */
  function Parse(cfg: Config, token: Jwt, now: Time): Result<Claims, Error> {
    if token.Signed? && token.alg == HS256 && token.secret == cfg.secret
       && now < token.claims.expiresAt && token.claims.issuedAt <= now
    then Ok(token.claims)
    else Err(ParseFailed)
  }

  function ValidateAccessToken(cfg: Config, token: Jwt, now: Time): Result<string, Error> {
    match Parse(cfg, token, now)
    case Err(e) => Err(e)
    case Ok(claims) => if claims.tokenType != AccessKind then Err(WrongType) else Ok(claims.subject)
  }

  /** The part of ValidateRefreshToken that comes before the store is asked. */
  function CheckRefreshToken(cfg: Config, token: Jwt, now: Time): Result<string, Error> {
    match Parse(cfg, token, now)
    case Err(e) => Err(e)
    case Ok(claims) => if claims.tokenType != RefreshKind then Err(WrongType) else Ok(claims.subject)
  }

  /** Conversion of a 64-bit integer to 32 bits keeps the low bits, as two's complement. */
  function ToInt32(x: int): int {
    (x + 0x8000_0000) % 0x1_0000_0000 - 0x8000_0000
  }

  /** Integer division of a duration, rounding toward zero. */
  function TruncDiv(x: int, y: int): int
    requires y > 0
  {
    if x >= 0 then x / y else -((-x) / y)
  }

  function AdvertisedTTL(cfg: Config): int {
    ToInt32(TruncDiv(cfg.refreshTTL, SECOND))
  }

  /** A token of this kind for this user, signed under the service's key and within its life. */
  ghost predicate SignedNow(cfg: Config, token: Jwt, now: Time, user: string, kind: Kind) {
    exists exp, iat, id: nat ::
      iat <= now < exp && token == Signed(HS256, cfg.secret, Claims(user, exp, iat, id, kind))
  }

  /** Parsing yields the claims of a signed and current token, and refuses everything else. */
  lemma ParseIff(cfg: Config, token: Jwt, now: Time)
    ensures match Parse(cfg, token, now)
            case Ok(claims) =>
              forall user, kind {:trigger SignedNow(cfg, token, now, user, kind)} ::
                SignedNow(cfg, token, now, user, kind) <==> user == claims.subject && kind == claims.tokenType
            case Err(e) =>
              e == ParseFailed
              && forall user, kind {:trigger SignedNow(cfg, token, now, user, kind)} ::
                   !SignedNow(cfg, token, now, user, kind)
  {
    var parsed := Parse(cfg, token, now);
    if parsed.Ok? {
      var Claims(user, exp, iat, id, kind) := parsed.value;
      assert iat <= now < exp && token == Signed(HS256, cfg.secret, Claims(user, exp, iat, id, kind));
    }
  }

  /** ValidateAccessToken, on every input: the user of an access token that the service's key has signed
      and whose life includes this instant; "wrong type" for such a token of any other kind; and a
      parsing error for everything else, be it unsigned text, another key or algorithm, or a token
      outside its life. */
  lemma AccessIff(cfg: Config, token: Jwt, now: Time, user: string)
    ensures ValidateAccessToken(cfg, token, now) == Ok(user) <==> SignedNow(cfg, token, now, user, AccessKind)
    ensures ValidateAccessToken(cfg, token, now) == Err(WrongType)
       <==> exists u, kind :: kind != AccessKind && SignedNow(cfg, token, now, u, kind)
    ensures ValidateAccessToken(cfg, token, now) == Err(ParseFailed)
       <==> forall u, kind :: !SignedNow(cfg, token, now, u, kind)
  {
    ParseIff(cfg, token, now);
    var parsed := Parse(cfg, token, now);
    if parsed.Ok? {
      assert SignedNow(cfg, token, now, parsed.value.subject, parsed.value.tokenType);
    }
    hide SignedNow, Parse;
  }

  /** The same for the part of ValidateRefreshToken that comes before the store is asked. */
  lemma RefreshCheckIff(cfg: Config, token: Jwt, now: Time, user: string)
    ensures CheckRefreshToken(cfg, token, now) == Ok(user) <==> SignedNow(cfg, token, now, user, RefreshKind)
    ensures CheckRefreshToken(cfg, token, now) == Err(WrongType)
       <==> exists u, kind :: kind != RefreshKind && SignedNow(cfg, token, now, u, kind)
    ensures CheckRefreshToken(cfg, token, now) == Err(ParseFailed)
       <==> forall u, kind :: !SignedNow(cfg, token, now, u, kind)
  {
    ParseIff(cfg, token, now);
    var parsed := Parse(cfg, token, now);
    if parsed.Ok? {
      assert SignedNow(cfg, token, now, parsed.value.subject, parsed.value.tokenType);
    }
    hide SignedNow, Parse;
  }

  /** A token passes as the kind it was signed as and as no other, whenever it is checked; one of a third
      kind, and text that is no signed token, pass as neither. */
  lemma KindsAreExclusive(cfg: Config, token: Jwt, t: Time, u: Time)
    ensures ValidateAccessToken(cfg, token, t).Ok? ==> token.Signed? && token.claims.tokenType == AccessKind
    ensures CheckRefreshToken(cfg, token, u).Ok? ==> token.Signed? && token.claims.tokenType == RefreshKind
    ensures !(ValidateAccessToken(cfg, token, t).Ok? && CheckRefreshToken(cfg, token, u).Ok?)
  {
  }

  /** A pair built under one configuration and checked under another passes exactly if the keys are
      the same and the clock is within its signed lifetime, each half as its own kind only, and
      yields the user it was built for; under another algorithm neither half passes at all. */
  lemma PairValidity(cfg: Config, verifier: Config, user: string, r: Readings, id: nat, now: Time)
    ensures var (access, refresh) := (AccessToken(cfg, user, r, id), RefreshToken(cfg, user, r, id));
            && ValidateAccessToken(verifier, access, now)
               == (if verifier.secret == cfg.secret
                      && NumericDate(r.accessIat) <= now < NumericDate(r.accessExp + cfg.accessTTL)
                   then Ok(user) else Err(ParseFailed))
            && CheckRefreshToken(verifier, refresh, now)
               == (if verifier.secret == cfg.secret
                      && NumericDate(r.refreshIat) <= now < NumericDate(r.refreshExp + cfg.refreshTTL)
                   then Ok(user) else Err(ParseFailed))
            && ValidateAccessToken(verifier, refresh, now).Err?
            && CheckRefreshToken(verifier, access, now).Err?
            && forall alg :: alg != HS256 ==>
                 ValidateAccessToken(verifier, access.(alg := alg), now).Err?
                 && CheckRefreshToken(verifier, refresh.(alg := alg), now).Err?
  {
  }

  /** The record is of the token it stores, unrevoked, and outlives it: its expiry is never before the
      signed one, because it is read later and not rounded down, and later only by that much. */
  lemma RecordCoversToken(cfg: Config, user: string, r: Readings, id: nat)
    requires r.refreshExp <= r.expires
    ensures var t := RefreshToken(cfg, user, r, id);
            var record := NewRefreshToken(cfg, user, t, r);
            && record.token == t && record.userID == user == t.claims.subject && !record.revoked
            && record.createdAt == r.created
            && t.claims.expiresAt <= record.expiresAt < t.claims.expiresAt + SECOND + (r.expires - r.refreshExp)
  {
  }

  /** The advertised seconds: exact truncation for every TTL that fits, and then the instant the
      client computes from it misses the signed expiry by less than a second either way.
      Outside that range the low 32 bits of the truncated seconds are advertised, which is wrong. */
  lemma AdvertisedLifetime(cfg: Config, user: string, r: Readings, id: nat)
    ensures AdvertisedTTL(cfg) == TruncDiv(cfg.refreshTTL, SECOND)
       <==> -0x8000_0001 * SECOND < cfg.refreshTTL < 0x8000_0000 * SECOND
    ensures 0 <= cfg.refreshTTL < 0x8000_0000 * SECOND ==>
              var exp := RefreshToken(cfg, user, r, id).claims.expiresAt;
              -SECOND < exp - (r.refreshExp + AdvertisedTTL(cfg) * SECOND) < SECOND
    ensures var rest := cfg.refreshTTL - TruncDiv(cfg.refreshTTL, SECOND) * SECOND;
            if 0 <= cfg.refreshTTL then 0 <= rest < SECOND else -SECOND < rest <= 0
    ensures -0x8000_0000 <= AdvertisedTTL(cfg) < 0x8000_0000
    ensures (AdvertisedTTL(cfg) - TruncDiv(cfg.refreshTTL, SECOND)) % 0x1_0000_0000 == 0
  {
    var q := TruncDiv(cfg.refreshTTL, SECOND);
    assert AdvertisedTTL(cfg) == q <==> -0x8000_0000 <= q < 0x8000_0000;
    if 0 <= cfg.refreshTTL {
      assert cfg.refreshTTL == q * SECOND + cfg.refreshTTL % SECOND;
    } else {
      assert -cfg.refreshTTL == -q * SECOND + (-cfg.refreshTTL) % SECOND;
    }
  }
}
