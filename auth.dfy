/**
 * The `authenticateToken` middleware: take the token out of the
 * Authorization header, verify it, and either answer the request with an
 * error or let it proceed on behalf of the user the token names.
 */
module Auth {
  import opened Wrappers
  import opened JsStrings
  import opened Tokens

  /** What the middleware decides: answer 401, answer 403, or call `next()`
      with `req.userId` set. */
  datatype AuthResult = MissingToken | InvalidToken | Authorized(userId: UserId)

  /** `authHeader && authHeader.split(' ')[1]`, read as "a token is present":
      the second space-separated word, if it exists and is non-empty. The
      first word is not looked at, so nothing checks that it says "Bearer".
      (An empty header gives `[""]` and so no second word, which matches the
      short-circuit of `&&` on an empty string.) */
  function ExtractToken(header: Option<string>): (r: Option<string>)
    ensures header.None? ==> r.None?
    ensures r.Some? ==> r.value != [] && ' ' !in r.value
  {
    match header
    case None => None
    case Some(h) =>
      var words := Split(h, ' ');
      if |words| < 2 || words[1] == [] then None else Some(words[1])
  }

  /** The middleware as a whole, at time `now`. */
  function Authenticate(header: Option<string>, signer: Signer, now: Time): (r: AuthResult)
    ensures r == MissingToken <==> ExtractToken(header).None?
    ensures r.Authorized? <==> ExtractToken(header).Some? && Verify(signer, ExtractToken(header).value, now).Some?
    ensures r.Authorized? ==> r.userId == Verify(signer, ExtractToken(header).value, now).value
  {
    match ExtractToken(header)
    case None => MissingToken
    case Some(token) =>
      match Verify(signer, token, now)
      case None => InvalidToken
      case Some(uid) => Authorized(uid)
  }

  /** A header with no space carries no token. */
  lemma NoSpaceNoToken(h: string)
    requires ' ' !in h
    ensures ExtractToken(Some(h)) == None
  {
    SplitNoSeparator(h, ' ');
  }

  /** A header made of any first word, a space, a second word `t` and then
      either nothing or more space-separated text yields `t` as the token
      when `t` is non-empty, and no token when `t` is empty (two spaces in a
      row, or a header that ends right after the first space). */
  lemma {:induction false} SecondWordIsToken(scheme: string, t: string, rest: string)
    requires ' ' !in scheme && ' ' !in t
    requires rest == [] || rest[0] == ' '
    ensures ExtractToken(Some(scheme + " " + t + rest)) == if t == [] then None else Some(t)
  {
    assert scheme + " " + t + rest == scheme + [' '] + (t + rest);
    SplitAfterWord(scheme, ' ', t + rest);
    SplitFirstPiece(t, ' ', rest);
  }

  /** A token this server issued, presented after any first word and a
      space, authorises exactly the user it was issued to while it is
      unexpired, and is refused with 403 afterwards. */
  lemma IssuedTokenAuthenticates(signer: Signer, scheme: string, uid: UserId, issued: Time, now: Time)
    requires Tokens.Sound(signer)
    requires ' ' !in scheme
    ensures Authenticate(Some(scheme + " " + signer.sign(Issue(uid, issued))), signer, now)
         == if Seconds(now) < Seconds(issued) + Lifetime then Authorized(uid) else InvalidToken
  {
    var token := signer.sign(Issue(uid, issued));
    assert token != [] && ' ' !in token;
    SecondWordIsToken(scheme, token, []);
    assert scheme + " " + token + [] == scheme + " " + token;
    IssuedTokenVerifies(signer, uid, issued, now);
  }
}
