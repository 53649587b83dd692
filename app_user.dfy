/**
 * The AppUser document's refresh-token bookkeeping and login counter: a
 * user keeps at most the five newest refresh tokens, a token is revoked by
 * value, and saving drops the tokens that have expired.
 *
 * Times are milliseconds since the epoch; `Date.now()` is the parameter
 * `now` of each operation that reads the clock.
 */
module AppUsers {
  import opened Wrappers
  import opened Seqs

  /** A refresh token as stored: `{ token, createdAt, expiresAt, deviceId }`. */
  datatype RefreshToken = RefreshToken(token: string, createdAt: int, expiresAt: int, deviceId: string)

  /** Seven days, the default lifetime of a refresh token. */
  const DefaultExpiresIn := 7 * 24 * 60 * 60 * 1000

  const MaxRefreshTokens := 5

  /** `if (ts.length > 5) ts = ts.slice(-5)`: the five newest tokens. */
  function Capped(ts: seq<RefreshToken>): (r: seq<RefreshToken>)
    ensures |r| <= MaxRefreshTokens
    ensures |ts| <= MaxRefreshTokens ==> r == ts
    ensures |ts| > MaxRefreshTokens ==> |r| == MaxRefreshTokens
    ensures r == ts[|ts| - |r|..]
  {
    if |ts| > MaxRefreshTokens then ts[|ts| - MaxRefreshTokens..] else ts
  }

  function OtherThan(token: string): RefreshToken -> bool {
    (rt: RefreshToken) => rt.token != token
  }

  /** `ts.filter(rt => rt.token !== token)`. */
  function WithoutToken(ts: seq<RefreshToken>, token: string): seq<RefreshToken> {
    Filter(ts, OtherThan(token))
  }

  function LiveAt(now: int): RefreshToken -> bool {
    (rt: RefreshToken) => rt.expiresAt > now
  }

  /** `ts.filter(rt => new Date(rt.expiresAt) > new Date())`. */
  function Unexpired(ts: seq<RefreshToken>, now: int): seq<RefreshToken> {
    Filter(ts, LiveAt(now))
  }

  /** The token `addRefreshToken` appends. */
  function NewToken(token: string, deviceId: string, expiresIn: Option<int>, now: int): (rt: RefreshToken)
    ensures rt.token == token && rt.deviceId == deviceId && rt.createdAt == now
    ensures expiresIn.None? ==> rt.expiresAt == now + DefaultExpiresIn
    ensures expiresIn.Some? ==> rt.expiresAt == now + expiresIn.value
  {
    var lifetime := match expiresIn case Some(ms) => ms case None => DefaultExpiresIn;
    RefreshToken(token, now, now + lifetime, deviceId)
  }

  class AppUser {
    var userId: string
    var email: string
    var refreshTokens: seq<RefreshToken>
    var lastLogin: int
    var loginCount: int

    /** A new document: no tokens, `lastLogin` now and no logins counted. */
    constructor(userId: string, email: string, now: int)
      ensures this.userId == userId && this.email == email
      ensures refreshTokens == [] && lastLogin == now && loginCount == 0
    {
      this.userId := userId;
      this.email := email;
      refreshTokens := [];
      lastLogin := now;
      loginCount := 0;
    }

    /** `addRefreshToken(token, deviceId, expiresIn)`; `None` for an omitted
        `expiresIn`. */
    method AddRefreshToken(token: string, deviceId: string, expiresIn: Option<int>, now: int)
      modifies this
      ensures refreshTokens == Capped(old(refreshTokens) + [NewToken(token, deviceId, expiresIn, now)])
      ensures |refreshTokens| <= MaxRefreshTokens
      ensures refreshTokens[|refreshTokens| - 1] == NewToken(token, deviceId, expiresIn, now)
      ensures unchanged(this`userId, this`email, this`lastLogin, this`loginCount)
    {
      var rt := NewToken(token, deviceId, expiresIn, now);
      var pushed := refreshTokens + [rt];
      refreshTokens := pushed;
      if |refreshTokens| > MaxRefreshTokens {
        refreshTokens := refreshTokens[|refreshTokens| - MaxRefreshTokens..];
      }
      assert refreshTokens == Capped(pushed);
      CappedKeepsNewest(old(refreshTokens), rt);
    }

    method RemoveRefreshToken(token: string)
      modifies this
      ensures refreshTokens == WithoutToken(old(refreshTokens), token)
      ensures unchanged(this`userId, this`email, this`lastLogin, this`loginCount)
    {
      refreshTokens := Filter(refreshTokens, OtherThan(token));
    }

    method RemoveAllRefreshTokens()
      modifies this
      ensures refreshTokens == []
      ensures unchanged(this`userId, this`email, this`lastLogin, this`loginCount)
    {
      refreshTokens := [];
    }

    method UpdateLastLogin(now: int)
      modifies this
      ensures lastLogin == now && loginCount == old(loginCount) + 1
      ensures unchanged(this`userId, this`email, this`refreshTokens)
    {
      lastLogin := now;
      loginCount := loginCount + 1;
    }

    /** The pre-save hook: a non-empty token list loses its expired tokens. */
    method PreSave(now: int)
      modifies this
      ensures refreshTokens == Unexpired(old(refreshTokens), now)
      ensures unchanged(this`userId, this`email, this`lastLogin, this`loginCount)
    {
      if |refreshTokens| > 0 {
        refreshTokens := Filter(refreshTokens, LiveAt(now));
      }
    }
  }

  /** The token just added is the newest one kept, and the others kept are
      the newest of the older ones, in order. */
  lemma CappedKeepsNewest(ts: seq<RefreshToken>, rt: RefreshToken)
    ensures var r := Capped(ts + [rt]);
      |r| > 0 && r[|r| - 1] == rt && r[..|r| - 1] == ts[|ts| - (|r| - 1)..]
  {
    var s := ts + [rt];
    var r := Capped(s);
    assert r == s[|s| - |r|..];
    assert r[..|r| - 1] == s[|s| - |r|..|s| - 1];
    assert s[..|s| - 1] == ts;
  }

  /** Adding a token to a full list drops exactly the oldest one. */
  lemma {:induction false} AddToFullDropsOldest(ts: seq<RefreshToken>, rt: RefreshToken)
    requires |ts| == MaxRefreshTokens
    ensures Capped(ts + [rt]) == ts[1..] + [rt]
  {
    CappedKeepsNewest(ts, rt);
    var r := Capped(ts + [rt]);
    assert r == r[..|r| - 1] + [r[|r| - 1]];
  }

  /** Revoking keeps every other token, in order, and no token with that value. */
  lemma WithoutTokenExactly(ts: seq<RefreshToken>, token: string, rt: RefreshToken)
    ensures rt in WithoutToken(ts, token) <==> rt in ts && rt.token != token
    ensures forall x :: x in WithoutToken(ts, token) ==> x.token != token
    ensures WithoutToken(WithoutToken(ts, token), token) == WithoutToken(ts, token)
    ensures (forall x :: x in ts ==> x.token != token) ==> WithoutToken(ts, token) == ts
  {
    FilterMembership(ts, OtherThan(token), rt);
    forall x | x in WithoutToken(ts, token) ensures x.token != token {
      FilterMembership(ts, OtherThan(token), x);
    }
    FilterFilterImplied(ts, OtherThan(token), OtherThan(token));
    if forall x :: x in ts ==> x.token != token {
      FilterAll(ts, OtherThan(token));
    }
  }

  /** Saving keeps exactly the tokens that expire after now, in order; a
      token that survives a later save survived an earlier one. */
  lemma UnexpiredExactly(ts: seq<RefreshToken>, now: int, later: int, rt: RefreshToken)
    requires now <= later
    ensures rt in Unexpired(ts, now) <==> rt in ts && rt.expiresAt > now
    ensures Unexpired(Unexpired(ts, now), later) == Unexpired(ts, later)
  {
    FilterMembership(ts, LiveAt(now), rt);
    FilterFilterImplied(ts, LiveAt(now), LiveAt(later));
  }

  /** A token added with a positive lifetime survives a save at the same time. */
  lemma NewTokenSurvivesSave(ts: seq<RefreshToken>, token: string, deviceId: string,
                             expiresIn: Option<int>, now: int)
    requires expiresIn.None? || expiresIn.value > 0
    ensures NewToken(token, deviceId, expiresIn, now) in
            Unexpired(Capped(ts + [NewToken(token, deviceId, expiresIn, now)]), now)
  {
    var rt := NewToken(token, deviceId, expiresIn, now);
    CappedKeepsNewest(ts, rt);
    var r := Capped(ts + [rt]);
    assert rt in r;
    FilterMembership(r, LiveAt(now), rt);
  }
}
