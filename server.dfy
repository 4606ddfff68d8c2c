/**
 * The request handlers, over the two stores: users keyed by email and
 * planner documents keyed by the id of the user who owns them.
 */
module Server {
  import opened Wrappers
  import opened JsStrings
  import Passwords
  import opened Tokens
  import opened Auth
  import opened Planners

  /** Emails are keys as given; the schema's lower-casing is taken as done. */
  type Email = string

  datatype User = User(id: UserId, email: Email, passwordHash: string, createdAt: Time)

  /** JSON response bodies. */
  datatype Body =
    | TokenBody(token: string, email: Email)        // { token, email }
    | PlannerBody(dailyData: Mapping, weeklyData: Mapping, heroImage: Option<string>)
    | SuccessBody                                   // { success: true }
    | EmailBody(email: Email)                       // { email }
    | ErrorBody(error: string)                      // { error }

  datatype Response = Response(status: nat, body: Body)

  const FieldsRequired := "Email and password required"
  const PasswordTooShort := "Password must be at least 6 characters"
  const EmailTaken := "Email already registered"
  const BadCredentials := "Invalid email or password"
  const TokenRequired := "Access token required"
  const TokenRejected := "Invalid or expired token"
  const UpdateFailed := "Failed to update planner data"
  const UnknownUser := "Invalid token"

  const MinPasswordLength: nat := 6

  /** JavaScript truthiness of a string field of the request body:
      present, not null and not empty. */
  predicate Truthy(field: Option<string>)
  {
    field.Some? && field.value != []
  }

  /** The checks of `/api/register`, in the order the handler makes them; the
      error message of the first that fails, or None when all pass. */
  function RegisterRejection(users: map<Email, User>, email: Option<string>, password: Option<string>): (r: Option<string>)
    ensures !(Truthy(email) && Truthy(password)) ==> r == Some(FieldsRequired)
    ensures Truthy(email) && Truthy(password) && Utf16Length(password.value) < MinPasswordLength
            ==> r == Some(PasswordTooShort)
    ensures Truthy(email) && Truthy(password) && Utf16Length(password.value) >= MinPasswordLength && email.value in users
            ==> r == Some(EmailTaken)
    ensures r.None? <==> Truthy(email) && Truthy(password)
                         && Utf16Length(password.value) >= MinPasswordLength && email.value !in users
  {
    if !Truthy(email) || !Truthy(password) then Some(FieldsRequired)
    else if Utf16Length(password.value) < MinPasswordLength then Some(PasswordTooShort)
    else if email.value in users then Some(EmailTaken)
    else None
  }

  /** The response the middleware sends when it does not call `next()`. */
  function AuthFailure(a: AuthResult): (r: Response)
    requires !a.Authorized?
    ensures a.MissingToken? ==> r == Response(401, ErrorBody(TokenRequired))
    ensures a.InvalidToken? ==> r == Response(403, ErrorBody(TokenRejected))
  {
    if a.MissingToken? then Response(401, ErrorBody(TokenRequired))
    else Response(403, ErrorBody(TokenRejected))
  }

  /** The planner a handler works on: the stored one, or a new one. */
  function PlannerOrNew(planners: map<UserId, Planner>, uid: UserId, now: Time): (p: Planner)
    ensures uid in planners ==> p == planners[uid]
    ensures uid !in planners ==> p == NewPlanner(uid, now)
  {
    if uid in planners then planners[uid] else NewPlanner(uid, now)
  }

  class Server {
    var users: map<Email, User>
    var planners: map<UserId, Planner>
    const hasher: Passwords.Hasher
    const signer: Signer

    /** Store consistency: each user is filed under its own email, ids are
        unique, and each planner is filed under its owner's id. */
    ghost predicate Valid()
      reads this
    {
      && (forall e :: e in users ==> users[e].email == e)
      && (forall e, e' :: e in users && e' in users && users[e].id == users[e'].id ==> e == e')
      && (forall u :: u in planners ==> planners[u].userId == u)
    }

    /** An id the ObjectId generator may hand out: no user or planner has it. */
    ghost predicate IdUnused(id: UserId)
      reads this
    {
      id !in planners && forall e :: e in users ==> users[e].id != id
    }

    constructor (hasher: Passwords.Hasher, signer: Signer)
      ensures Valid()
      ensures users == map[] && planners == map[]
      ensures this.hasher == hasher && this.signer == signer
    {
      users := map[];
      planners := map[];
      this.hasher := hasher;
      this.signer := signer;
    }

    /** `POST /api/register`. `id` is the ObjectId the new user gets, `salt`
        the salt bcrypt draws and `now` the clock. */
    method Register(email: Option<string>, password: Option<string>, id: UserId, salt: Passwords.Salt, now: Time)
      returns (resp: Response)
      requires Valid()
      requires IdUnused(id)
      modifies this
      ensures Valid()
      ensures RegisterRejection(old(users), email, password).Some? ==>
                && resp == Response(400, ErrorBody(RegisterRejection(old(users), email, password).value))
                && users == old(users) && planners == old(planners)
      ensures RegisterRejection(old(users), email, password).None? ==>
                && users == old(users)[email.value := User(id, email.value, hasher.hash(password.value, Passwords.SaltRounds, salt), now)]
                && planners == old(planners)[id := NewPlanner(id, now)]
                && resp == Response(200, TokenBody(signer.sign(Issue(id, now)), email.value))
    {
      var rejection := RegisterRejection(users, email, password);
      if rejection.Some? {
        return Response(400, ErrorBody(rejection.value));
      }
      var hashed := hasher.hash(password.value, Passwords.SaltRounds, salt);
      var user := User(id, email.value, hashed, now);
      users := users[email.value := user];
      planners := planners[id := NewPlanner(id, now)];
      var token := signer.sign(Issue(user.id, now));
      resp := Response(200, TokenBody(token, user.email));
    }

    /** `POST /api/login`. It changes neither store, and an unknown email
        and a wrong password get the very same answer. */
    method Login(email: Option<string>, password: Option<string>, now: Time) returns (resp: Response)
      requires Valid()
      ensures !(Truthy(email) && Truthy(password)) ==> resp == Response(400, ErrorBody(FieldsRequired))
      ensures Truthy(email) && Truthy(password)
              && (email.value !in users || !hasher.compare(password.value, users[email.value].passwordHash))
              ==> resp == Response(401, ErrorBody(BadCredentials))
      ensures Truthy(email) && Truthy(password)
              && email.value in users && hasher.compare(password.value, users[email.value].passwordHash)
              ==> resp == Response(200, TokenBody(signer.sign(Issue(users[email.value].id, now)), email.value))
    {
      if !Truthy(email) || !Truthy(password) {
        return Response(400, ErrorBody(FieldsRequired));
      }
      if email.value !in users {
        return Response(401, ErrorBody(BadCredentials));
      }
      var user := users[email.value];
      var validPassword := hasher.compare(password.value, user.passwordHash);
      if !validPassword {
        return Response(401, ErrorBody(BadCredentials));
      }
      var token := signer.sign(Issue(user.id, now));
      resp := Response(200, TokenBody(token, user.email));
    }

    /** `GET /api/planner`: the caller's planner, created and stored first
        when the caller has none. */
    method GetPlanner(header: Option<string>, now: Time) returns (resp: Response)
      requires Valid()
      modifies this
      ensures Valid()
      ensures users == old(users)
      ensures !Authenticate(header, signer, now).Authorized? ==>
                planners == old(planners) && resp == AuthFailure(Authenticate(header, signer, now))
      ensures Authenticate(header, signer, now).Authorized? ==>
                var uid := Authenticate(header, signer, now).userId;
                var p := PlannerOrNew(old(planners), uid, now);
                && planners == old(planners)[uid := p]
                && resp == Response(200, PlannerBody(p.dailyData, p.weeklyData, p.heroImage))
    {
      var auth := Authenticate(header, signer, now);
      if !auth.Authorized? {
        return AuthFailure(auth);
      }
      var planner: Planner;
      if auth.userId in planners {
        planner := planners[auth.userId];
      } else {
        planner := NewPlanner(auth.userId, now);
        planners := planners[auth.userId := planner];
      }
      resp := Response(200, PlannerBody(planner.dailyData, planner.weeklyData, planner.heroImage));
    }

    /** `POST /api/planner`: the planner is changed one field at a time and
        saved only after the last step, so a throwing step saves nothing. */
    method UpdatePlanner(header: Option<string>, update: Update, now: Time) returns (resp: Response)
      requires Valid()
      modifies this
      ensures Valid()
      ensures users == old(users)
      ensures !Authenticate(header, signer, now).Authorized? ==>
                planners == old(planners) && resp == AuthFailure(Authenticate(header, signer, now))
      ensures Authenticate(header, signer, now).Authorized? ==>
                var uid := Authenticate(header, signer, now).userId;
                var result := ApplyUpdate(PlannerOrNew(old(planners), uid, now), update, now);
                && (result.None? ==> planners == old(planners) && resp == Response(500, ErrorBody(UpdateFailed)))
                && (result.Some? ==> planners == old(planners)[uid := result.value] && resp == Response(200, SuccessBody))
    {
      var auth := Authenticate(header, signer, now);
      if !auth.Authorized? {
        return AuthFailure(auth);
      }
      var planner := PlannerOrNew(planners, auth.userId, now);
      ghost var start := planner;
      match update.dailyData {
        case Absent =>
        case Null => return Response(500, ErrorBody(UpdateFailed));
        case Value(m) => planner := planner.(dailyData := m);
      }
      match update.weeklyData {
        case Absent =>
        case Null => return Response(500, ErrorBody(UpdateFailed));
        case Value(m) => planner := planner.(weeklyData := m);
      }
      match update.heroImage {
        case Absent =>
        case Null => planner := planner.(heroImage := None);
        case Value(s) => planner := planner.(heroImage := Some(s));
      }
      planner := planner.(lastUpdated := now);
      assert ApplyUpdate(start, update, now) == Some(planner);
      planners := planners[auth.userId := planner];
      resp := Response(200, SuccessBody);
    }

    /** `GET /api/verify`: the email of the user the token names, or 401
        "Invalid token" when no user has that id. */
    method VerifySession(header: Option<string>, now: Time) returns (resp: Response)
      requires Valid()
      ensures !Authenticate(header, signer, now).Authorized? ==> resp == AuthFailure(Authenticate(header, signer, now))
      ensures Authenticate(header, signer, now).Authorized? ==>
                var uid := Authenticate(header, signer, now).userId;
                && ((forall e :: e in users ==> users[e].id != uid) ==> resp == Response(401, ErrorBody(UnknownUser)))
                && (forall e :: e in users && users[e].id == uid ==> resp == Response(200, EmailBody(e)))
    {
      var auth := Authenticate(header, signer, now);
      if !auth.Authorized? {
        return AuthFailure(auth);
      }
      if e :| e in users && users[e].id == auth.userId {
        resp := Response(200, EmailBody(users[e].email));
      } else {
        resp := Response(401, ErrorBody(UnknownUser));
      }
    }
  }
}
