/**
 * Session tokens (jsonwebtoken), kept abstract: a signer that turns claims
 * into a token string and a decoder that checks the signature and gives the
 * claims back, plus the expiry check that `jwt.verify` performs.
 */
module Tokens {
  import opened Wrappers

  type UserId = nat

  /** Wall-clock time in milliseconds, as `Date.now()` gives it. */
  type Time = nat

  /** `expiresIn: '30d'`, in seconds. */
  const Lifetime: nat := 30 * 24 * 60 * 60

  /** The payload of a token: `{ userId }` and the `iat`/`exp` claims in seconds. */
  datatype Claims = Claims(userId: UserId, iat: nat, exp: nat)

  /** Whole seconds since the epoch, as jsonwebtoken reads the clock. */
  function Seconds(now: Time): nat
  {
    now / 1000
  }

  /** The claims `jwt.sign({ userId }, secret, { expiresIn: '30d' })` signs at time `now`. */
  function Issue(uid: UserId, now: Time): (c: Claims)
    ensures c.userId == uid
    ensures c.iat == Seconds(now) && c.exp == c.iat + Lifetime
  {
    Claims(uid, Seconds(now), Seconds(now) + Lifetime)
  }

  /** Signing and signature checking under the server's secret. `decode`
      answers None for a malformed token or a bad signature. */
  datatype Signer = Signer(sign: Claims -> string, decode: string -> Option<Claims>)

  /** A sound signer gives back the claims of every token it signed, and its
      tokens are non-empty and contain no space (a JWT is three base64url
      segments joined by dots). */
  ghost predicate Sound(s: Signer)
  {
    forall c :: s.decode(s.sign(c)) == Some(c) && s.sign(c) != [] && ' ' !in s.sign(c)
  }

  /** `jwt.verify(token, secret)`: the user id on success; None for a bad
      token and for an expired one alike, since both reach the same callback
      error. A token expires once the current second reaches `exp`. */
  function Verify(s: Signer, token: string, now: Time): (r: Option<UserId>)
    ensures r.Some? <==> s.decode(token).Some? && Seconds(now) < s.decode(token).value.exp
    ensures r.Some? ==> r.value == s.decode(token).value.userId
  {
    match s.decode(token)
    case None => None
    case Some(c) => if Seconds(now) >= c.exp then None else Some(c.userId)
  }

  /** A token issued at `issued` is accepted, for the user it was issued to,
      exactly while fewer than 30 days' worth of seconds have elapsed. */
  lemma IssuedTokenVerifies(s: Signer, uid: UserId, issued: Time, now: Time)
    requires Sound(s)
    ensures Verify(s, s.sign(Issue(uid, issued)), now)
         == if Seconds(now) < Seconds(issued) + Lifetime then Some(uid) else None
  {
    var c := Issue(uid, issued);
    assert s.decode(s.sign(c)) == Some(c);
  }

  /** In wall-clock terms: a token is accepted until one second short of
      30 days after it was issued (its `iat` is rounded down to the second),
      and rejected from 30 days on. */
  lemma IssuedTokenWindow(s: Signer, uid: UserId, issued: Time, now: Time)
    requires Sound(s)
    ensures now + 1000 <= issued + Lifetime * 1000 ==> Verify(s, s.sign(Issue(uid, issued)), now) == Some(uid)
    ensures now >= issued + Lifetime * 1000 ==> Verify(s, s.sign(Issue(uid, issued)), now) == None
  {
    IssuedTokenVerifies(s, uid, issued, now);
    var q, r := issued / 1000, issued % 1000;
    assert issued == 1000 * q + r && 0 <= r < 1000;
    var q', r' := now / 1000, now % 1000;
    assert now == 1000 * q' + r' && 0 <= r' < 1000;
    if now + 1000 <= issued + Lifetime * 1000 {
      assert 1000 * q' < 1000 * (q + Lifetime);
    }
    if now >= issued + Lifetime * 1000 {
      assert 1000 * q' + 1000 > 1000 * (q + Lifetime);
    }
  }
}
