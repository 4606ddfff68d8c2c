/**
 * Properties of sequences of requests against one server, proved from the
 * handlers' contracts alone: what a client can rely on.
 */
module Sessions {
  import opened Wrappers
  import opened JsStrings
  import Passwords
  import opened Tokens
  import opened Auth
  import opened Planners
  import opened Server

  /** A user who registered can log in with the same password, and gets a
      token for the same id under the same email. */
  method RegisterThenLogin(s: Server, email: string, password: string, id: UserId, salt: Passwords.Salt, t1: Time, t2: Time)
    returns (r1: Response, r2: Response)
    requires s.Valid() && s.IdUnused(id) && Passwords.Sound(s.hasher)
    requires RegisterRejection(s.users, Some(email), Some(password)).None?
    modifies s
    ensures s.Valid()
    ensures r1 == Response(200, TokenBody(s.signer.sign(Issue(id, t1)), email))
    ensures r2 == Response(200, TokenBody(s.signer.sign(Issue(id, t2)), email))
  {
    r1 := s.Register(Some(email), Some(password), id, salt, t1);
    assert s.hasher.compare(password, s.hasher.hash(password, Passwords.SaltRounds, salt));
    r2 := s.Login(Some(email), Some(password), t2);
  }

  /** Once an email is registered, registering it again fails with 400 and
      changes nothing, whatever the password; with a long enough password the
      error is "Email already registered". */
  method RegisterTwice(s: Server, email: string, p1: string, p2: Option<string>,
                       id1: UserId, id2: UserId, salt1: Passwords.Salt, salt2: Passwords.Salt, t1: Time, t2: Time)
    returns (r1: Response, r2: Response)
    requires s.Valid() && s.IdUnused(id1) && s.IdUnused(id2) && id1 != id2
    requires RegisterRejection(s.users, Some(email), Some(p1)).None?
    modifies s
    ensures r1.status == 200 && r2.status == 400
    ensures Truthy(p2) && Utf16Length(p2.value) >= MinPasswordLength ==> r2 == Response(400, ErrorBody(EmailTaken))
    ensures s.users == old(s.users)[email := User(id1, email, s.hasher.hash(p1, Passwords.SaltRounds, salt1), t1)]
    ensures s.planners == old(s.planners)[id1 := NewPlanner(id1, t1)]
    ensures id2 !in s.planners
  {
    r1 := s.Register(Some(email), Some(p1), id1, salt1, t1);
    r2 := s.Register(Some(email), p2, id2, salt2, t2);
  }

  /** The token a registration returns, sent back in a header of the form
      "<word> <token>" while it is unexpired, makes `/api/verify` answer with
      the registered email. */
  method RegisterThenVerify(s: Server, email: string, password: string, id: UserId, salt: Passwords.Salt,
                            t1: Time, scheme: string, t2: Time)
    returns (r1: Response, r2: Response)
    requires s.Valid() && s.IdUnused(id) && Tokens.Sound(s.signer) && ' ' !in scheme
    requires RegisterRejection(s.users, Some(email), Some(password)).None?
    requires Seconds(t2) < Seconds(t1) + Lifetime
    modifies s
    ensures r1.status == 200 && r1.body.TokenBody?
    ensures r2 == Response(200, EmailBody(email))
  {
    r1 := s.Register(Some(email), Some(password), id, salt, t1);
    IssuedTokenAuthenticates(s.signer, scheme, id, t1, t2);
    r2 := s.VerifySession(Some(scheme + " " + r1.body.token), t2);
  }

  /** After a successful update, a read returns exactly the values the update
      wrote, and the previous values of the fields it left undefined. */
  method UpdateThenGet(s: Server, header: Option<string>, u: Update, t1: Time, t2: Time)
    returns (r1: Response, r2: Response)
    requires s.Valid()
    requires Authenticate(header, s.signer, t1).Authorized?
    requires Authenticate(header, s.signer, t2) == Authenticate(header, s.signer, t1)
    requires !u.dailyData.Null? && !u.weeklyData.Null?
    modifies s
    ensures r1 == Response(200, SuccessBody)
    ensures var before := PlannerOrNew(old(s.planners), Authenticate(header, s.signer, t1).userId, t1);
            && r2.status == 200 && r2.body.PlannerBody?
            && r2.body.dailyData == (if u.dailyData.Value? then u.dailyData.value else before.dailyData)
            && r2.body.weeklyData == (if u.weeklyData.Value? then u.weeklyData.value else before.weeklyData)
            && r2.body.heroImage == (match u.heroImage
                                     case Absent => before.heroImage
                                     case Null => None
                                     case Value(img) => Some(img))
  {
    r1 := s.UpdatePlanner(header, u, t1);
    r2 := s.GetPlanner(header, t2);
  }

  /** A token issued to user `a` reaches only `a`'s planner: an update sent
      with it leaves every other user's planner as it was, and creates none. */
  method TokenIsolation(s: Server, scheme: string, a: UserId, issued: Time, u: Update, now: Time)
    returns (r: Response)
    requires s.Valid() && Tokens.Sound(s.signer) && ' ' !in scheme
    modifies s
    ensures forall b :: b != a ==> (b in s.planners <==> b in old(s.planners))
    ensures forall b :: b != a && b in old(s.planners) ==> s.planners[b] == old(s.planners)[b]
  {
    IssuedTokenAuthenticates(s.signer, scheme, a, issued, now);
    r := s.UpdatePlanner(Some(scheme + " " + s.signer.sign(Issue(a, issued))), u, now);
  }

  /** A session from registration on: a new planner reads as two empty
      mappings and no image; setting only the hero image leaves the mappings
      as they were. */
  method ExampleSession(hasher: Passwords.Hasher, signer: Signer, salt: Passwords.Salt, now: Time)
    returns (r1: Response, r2: Response, r3: Response, r4: Response)
    requires Tokens.Sound(signer)
    ensures r1 == Response(200, TokenBody(signer.sign(Issue(0, now)), "a@x.com"))
    ensures r2 == Response(200, PlannerBody(map[], map[], None))
    ensures r3 == Response(200, SuccessBody)
    ensures r4 == Response(200, PlannerBody(map[], map[], Some("img1")))
  {
    var s := new Server(hasher, signer);
    Utf16LengthBounds("secret1");
    assert RegisterRejection(s.users, Some("a@x.com"), Some("secret1")).None?;
    r1 := s.Register(Some("a@x.com"), Some("secret1"), 0, salt, now);
    assert s.planners == map[0 := NewPlanner(0, now)];
    assert "Bearer" + " " == "Bearer ";
    var header := Some("Bearer " + r1.body.token);
    IssuedTokenAuthenticates(signer, "Bearer", 0, now, now);
    assert Authenticate(header, signer, now) == Authorized(0);
    r2 := s.GetPlanner(header, now);
    assert s.planners == map[0 := NewPlanner(0, now)];
    var u := Update(Absent, Absent, Value("img1"));
    assert ApplyUpdate(NewPlanner(0, now), u, now) == Some(Planner(0, map[], map[], Some("img1"), now));
    r3 := s.UpdatePlanner(header, u, now);
    assert s.planners == map[0 := Planner(0, map[], map[], Some("img1"), now)];
    r4 := s.GetPlanner(header, now);
  }
}
