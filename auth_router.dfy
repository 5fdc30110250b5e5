/** The account routes of src/routers/auth.py: sign-up with a one-time password, its
    verification, password login and Google login. Password hashing, the OTP generator, the
    JWT encoder and Google's token check are outside the model: the hash and its check are
    parameters, the drawn OTP code is an input, an access token is modelled by its subject, and
    a Google check is the identity it yields or `None`. */
module AuthRouter {
  import opened Wrappers
  import opened Tables

  /** An access token, by the `sub` claim `create_access_token` signs. */
  datatype AccessToken = Bearer(sub: string)

  /** What `verify_google_token` yields for a token it accepts. */
  datatype GoogleIdentity = GoogleIdentity(email: string, name: Option<string>)

  /** A route's new tables and its answer. */
  datatype Step<+T> = Step(tables: Tables, reply: Reply<T>)

  /** Ten minutes, in seconds (src/routers/auth.py:42). */
  const OtpLifetime: int := 600

  const SignupMessage: string := "User created. Please verify your email with the OTP sent."

  /** A row with the `users` defaults (src/models.py:10-14) and the given identity. */
  function NewUser(id: Id, email: string, hashedPassword: Option<string>, provider: string,
                   name: Option<string>, verified: bool, now: Time): User
  {
    User(id, email, hashedPassword, provider, name, verified, 0, None, false, None, now)
  }

  /** `signup` (src/routers/auth.py:18-49). */
  function SignupStep(t: Tables, email: string, password: string, name: Option<string>,
                      hash: string -> string, code: string, now: Time): (r: Step<string>)
    ensures FindUserByEmail(t.users, email).Some? ==> r == Step(t, HttpError(400, "Email already registered"))
    ensures FindUserByEmail(t.users, email).None? ==>
              && r.reply == Ok(SignupMessage)
              && |r.tables.users| == |t.users| + 1 && |r.tables.otps| == |t.otps| + 1
              && r.tables == t.(users := t.users + [r.tables.users[|t.users|]],
                                otps := t.otps + [r.tables.otps[|t.otps|]])
              && var u := r.tables.users[|t.users|];
                 var o := r.tables.otps[|t.otps|];
                 && u.id !in UserIds(t.users) && u.email == email && u.name == name
                 && u.hashedPassword == Some(hash(password)) && u.authProvider == "email"
                 && !u.isVerified && u.accountType == 0 && u.lastExportAt.None?
                 && !u.subscriptionActive && u.subscriptionExpiresAt.None? && u.createdAt == now
                 && o.id !in OtpIds(t.otps) && o.userId == u.id && o.code == code
                 && o.expiresAt == now + OtpLifetime && o.createdAt == now
  {
    if FindUserByEmail(t.users, email).Some? then Step(t, HttpError(400, "Email already registered"))
    else
      var user := NewUser(NextId(UserIds(t.users)), email, Some(hash(password)), "email", name, false, now);
      var otp := Otp(NextId(OtpIds(t.otps)), user.id, code, now + OtpLifetime, now);
      Step(t.(users := t.users + [user], otps := t.otps + [otp]), Ok(SignupMessage))
  }

  /** The OTP row the `verify_otp` query finds: the user's, with that code, not yet expired. */
  function FindOtp(otps: seq<Otp>, userId: Id, code: string, now: Time): (r: Option<nat>)
    ensures r.Some? ==> r.value < |otps| && otps[r.value].userId == userId
                        && otps[r.value].code == code && otps[r.value].expiresAt > now
    ensures r.None? <==> forall i :: 0 <= i < |otps| ==>
                           !(otps[i].userId == userId && otps[i].code == code && otps[i].expiresAt > now)
  {
    if otps == [] then None
    else if otps[0].userId == userId && otps[0].code == code && otps[0].expiresAt > now then Some(0)
    else match FindOtp(otps[1..], userId, code, now)
      case None => None
      case Some(i) => Some(i + 1)
  }

  function RemoveAt<T>(s: seq<T>, i: nat): (r: seq<T>)
    requires i < |s|
    ensures |r| == |s| - 1
    ensures forall j :: 0 <= j < i ==> r[j] == s[j]
    ensures forall j :: i <= j < |r| ==> r[j] == s[j + 1]
  {
    s[..i] + s[i + 1..]
  }

  /** `verify_otp` (src/routers/auth.py:51-77). */
  function VerifyOtpStep(t: Tables, email: string, code: string, now: Time): (r: Step<AccessToken>)
    ensures FindUserByEmail(t.users, email).None? ==> r == Step(t, HttpError(404, "User not found"))
    ensures r.reply.Ok? <==>
              && FindUserByEmail(t.users, email).Some?
              && FindOtp(t.otps, t.users[FindUserByEmail(t.users, email).value].id, code, now).Some?
    ensures r.reply.HttpError? ==> r.tables == t
    ensures FindUserByEmail(t.users, email).Some?
            && FindOtp(t.otps, t.users[FindUserByEmail(t.users, email).value].id, code, now).None? ==>
              r == Step(t, HttpError(400, "Invalid or expired OTP"))
    ensures r.reply.Ok? ==>
              var u := FindUserByEmail(t.users, email).value;
              var o := FindOtp(t.otps, t.users[u].id, code, now).value;
              && r.reply.value == Bearer(email)
              && r.tables == t.(users := t.users[u := t.users[u].(isVerified := true)],
                                otps := RemoveAt(t.otps, o))
  {
    match FindUserByEmail(t.users, email)
    case None => Step(t, HttpError(404, "User not found"))
    case Some(u) =>
      match FindOtp(t.otps, t.users[u].id, code, now)
      case None => Step(t, HttpError(400, "Invalid or expired OTP"))
      case Some(o) =>
        Step(t.(users := t.users[u := t.users[u].(isVerified := true)], otps := RemoveAt(t.otps, o)),
             Ok(Bearer(t.users[u].email)))
  }

  /** The user with this e-mail exists and has a non-empty hash that `password` verifies against. */
  predicate CredentialsMatch(t: Tables, email: string, password: string, verify: (string, string) -> bool)
  {
    && FindUserByEmail(t.users, email).Some?
    && var u := t.users[FindUserByEmail(t.users, email).value];
       && u.hashedPassword.Some? && u.hashedPassword.value != ""
       && verify(password, u.hashedPassword.value)
  }

  /** `login` (src/routers/auth.py:79-89): it changes nothing. */
  function Login(t: Tables, email: string, password: string, verify: (string, string) -> bool): (r: Reply<AccessToken>)
    ensures r.Ok? <==>
              && FindUserByEmail(t.users, email).Some?
              && var u := t.users[FindUserByEmail(t.users, email).value];
                 && u.hashedPassword.Some? && u.hashedPassword.value != ""
                 && verify(password, u.hashedPassword.value)
                 && u.isVerified
    ensures r.Ok? ==> r.value == Bearer(email)
    ensures r.HttpError? ==> r.status == 401
    ensures r.HttpError? ==>
              r.detail == if CredentialsMatch(t, email, password, verify) then "Email not verified. Please verify OTP."
                          else "Incorrect email or password"
  {
    match FindUserByEmail(t.users, email)
    case None => HttpError(401, "Incorrect email or password")
    case Some(i) =>
      var u := t.users[i];
      if u.hashedPassword.None? || u.hashedPassword.value == "" || !verify(password, u.hashedPassword.value) then
        HttpError(401, "Incorrect email or password")
      else if !u.isVerified then HttpError(401, "Email not verified. Please verify OTP.")
      else Ok(Bearer(u.email))
  }

  /** `google_login` (src/routers/auth.py:91-123). */
  function GoogleLoginStep(t: Tables, identity: Option<GoogleIdentity>, now: Time): (r: Step<AccessToken>)
    ensures identity.None? ==> r == Step(t, HttpError(400, "Invalid Google token"))
    ensures identity.Some? ==> r.reply == Ok(Bearer(identity.value.email))
    ensures identity.Some? && FindUserByEmail(t.users, identity.value.email).None? ==>
              && |r.tables.users| == |t.users| + 1
              && r.tables == t.(users := t.users + [r.tables.users[|t.users|]])
              && var u := r.tables.users[|t.users|];
                 && u.id == NextId(UserIds(t.users)) && u.id !in UserIds(t.users)
                 && u.email == identity.value.email && u.name == identity.value.name
                 && u.authProvider == "google" && u.isVerified && u.hashedPassword.None?
                 && u.accountType == 0 && u.lastExportAt.None?
                 && !u.subscriptionActive && u.subscriptionExpiresAt.None? && u.createdAt == now
    ensures identity.Some? && FindUserByEmail(t.users, identity.value.email).Some? ==>
              var i := FindUserByEmail(t.users, identity.value.email).value;
              r.tables == t.(users := t.users[i := t.users[i].(isVerified := t.users[i].isVerified || t.users[i].authProvider == "email")])
  {
    match identity
    case None => Step(t, HttpError(400, "Invalid Google token"))
    case Some(id) =>
      match FindUserByEmail(t.users, id.email)
      case None =>
        var user := NewUser(NextId(UserIds(t.users)), id.email, None, "google", id.name, true, now);
        Step(t.(users := t.users + [user]), Ok(Bearer(user.email)))
      case Some(i) =>
        var u := t.users[i];
        if u.authProvider == "email" && !u.isVerified then
          Step(t.(users := t.users[i := u.(isVerified := true)]), Ok(Bearer(u.email)))
        else
          assert t.users[i := u] == t.users;
          Step(t, Ok(Bearer(u.email)))
  }

  // ---- Invariants the routes keep ----

  lemma SignupKeepsValid(t: Tables, email: string, password: string, name: Option<string>,
                         hash: string -> string, code: string, now: Time)
    requires Valid(t)
    ensures Valid(SignupStep(t, email, password, name, hash, code, now).tables)
  {
    var t' := SignupStep(t, email, password, name, hash, code, now).tables;
    if FindUserByEmail(t.users, email).None? {
      assert UserIds(t'.users) == UserIds(t.users) + [NextId(UserIds(t.users))];
      assert OtpIds(t'.otps) == OtpIds(t.otps) + [NextId(OtpIds(t.otps))];
      AppendFreshKeepsDistinct(UserIds(t.users));
      AppendFreshKeepsDistinct(OtpIds(t.otps));
      forall i | 0 <= i < |t'.otps|
        ensures t'.otps[i].userId in UserIds(t'.users)
      {
        if i < |t.otps| {
          assert t'.otps[i] == t.otps[i];
        } else {
          assert UserIds(t'.users)[|t.users|] == t'.otps[i].userId;
        }
      }
    }
  }

  lemma VerifyOtpKeepsValid(t: Tables, email: string, code: string, now: Time)
    requires Valid(t)
    ensures Valid(VerifyOtpStep(t, email, code, now).tables)
  {
    var t' := VerifyOtpStep(t, email, code, now).tables;
    if VerifyOtpStep(t, email, code, now).reply.Ok? {
      assert UserIds(t'.users) == UserIds(t.users);
      var o := FindOtp(t.otps, t.users[FindUserByEmail(t.users, email).value].id, code, now).value;
      assert forall i :: 0 <= i < |t'.otps| ==> t'.otps[i] == t.otps[if i < o then i else i + 1];
    }
  }

  lemma GoogleLoginKeepsValid(t: Tables, identity: Option<GoogleIdentity>, now: Time)
    requires Valid(t)
    ensures Valid(GoogleLoginStep(t, identity, now).tables)
  {
    var t' := GoogleLoginStep(t, identity, now).tables;
    if identity.Some? && FindUserByEmail(t.users, identity.value.email).None? {
      assert UserIds(t'.users) == UserIds(t.users) + [NextId(UserIds(t.users))];
      AppendFreshKeepsDistinct(UserIds(t.users));
    } else {
      assert UserIds(t'.users) == UserIds(t.users);
    }
  }

  // ---- The account lifecycle ----

  /** A new sign-up cannot log in until it is verified, whatever password it gives. */
  lemma SignupThenLoginIsRefused(t: Tables, email: string, password: string, name: Option<string>,
                                 hash: string -> string, code: string, now: Time,
                                 attempt: string, verify: (string, string) -> bool)
    requires Valid(t) && FindUserByEmail(t.users, email).None?
    ensures Login(SignupStep(t, email, password, name, hash, code, now).tables, email, attempt, verify).HttpError?
  {
    var t' := SignupStep(t, email, password, name, hash, code, now).tables;
    assert FindUserByEmail(t'.users, email) == Some(|t.users|) by {
      FindUserByEmailAppend(t.users, t'.users[|t.users|]);
    }
  }

  lemma FindUserByEmailAppend(users: seq<User>, u: User)
    requires FindUserByEmail(users, u.email).None?
    ensures FindUserByEmail(users + [u], u.email) == Some(|users|)
  {
    assert (users + [u])[|users|] == u;
    assert forall i :: 0 <= i < |users| ==> (users + [u])[i] == users[i];
  }

  /** The tables right after a sign-up of a new address. */
  lemma SignupFacts(t: Tables, email: string, password: string, name: Option<string>,
                    hash: string -> string, code: string, now: Time)
    requires Valid(t) && FindUserByEmail(t.users, email).None?
    ensures var t1 := SignupStep(t, email, password, name, hash, code, now).tables;
            var uid := NextId(UserIds(t.users));
            && t1.users == t.users + [NewUser(uid, email, Some(hash(password)), "email", name, false, now)]
            && t1.otps == t.otps + [Otp(NextId(OtpIds(t.otps)), uid, code, now + OtpLifetime, now)]
            && FindUserByEmail(t1.users, email) == Some(|t.users|)
            && forall i :: 0 <= i < |t.otps| ==> t.otps[i].userId != uid
  {
    var t1 := SignupStep(t, email, password, name, hash, code, now).tables;
    var uid := NextId(UserIds(t.users));
    FindUserByEmailAppend(t.users, t1.users[|t.users|]);
    forall i | 0 <= i < |t.otps|
      ensures t.otps[i].userId != uid
    {
      var j :| 0 <= j < |t.users| && UserIds(t.users)[j] == t.otps[i].userId;
    }
  }

  /** The only OTP of a user is the last row: the query finds it exactly while it is unexpired. */
  lemma FindOnlyOtp(otps: seq<Otp>, o: Otp, now: Time)
    requires forall i :: 0 <= i < |otps| ==> otps[i].userId != o.userId
    ensures FindOtp(otps, o.userId, o.code, now).None?
    ensures FindOtp(otps + [o], o.userId, o.code, now) == if o.expiresAt > now then Some(|otps|) else None
  {
    assert (otps + [o])[|otps|] == o;
    assert forall i :: 0 <= i < |otps| ==> (otps + [o])[i] == otps[i];
  }

  /** The code a sign-up sends verifies the account exactly while it is unexpired. */
  lemma SignupThenVerify(t: Tables, email: string, password: string, name: Option<string>,
                         hash: string -> string, code: string, now: Time, later: Time)
    requires Valid(t) && FindUserByEmail(t.users, email).None?
    ensures var t1 := SignupStep(t, email, password, name, hash, code, now).tables;
            VerifyOtpStep(t1, email, code, later).reply.Ok? <==> later < now + OtpLifetime
  {
    var t1 := SignupStep(t, email, password, name, hash, code, now).tables;
    SignupFacts(t, email, password, name, hash, code, now);
    FindOnlyOtp(t.otps, t1.otps[|t.otps|], later);
    assert t1.users[|t.users|].id == NextId(UserIds(t.users));
  }

  /** Once verified, the new user logs in with the password, and the same code is refused. */
  lemma VerifiedThenLoginOnce(t: Tables, email: string, password: string, name: Option<string>,
                              hash: string -> string, code: string, now: Time, later: Time,
                              verify: (string, string) -> bool)
    requires Valid(t) && FindUserByEmail(t.users, email).None?
    requires verify(password, hash(password)) && hash(password) != ""
    requires later < now + OtpLifetime
    ensures var t1 := SignupStep(t, email, password, name, hash, code, now).tables;
            var t2 := VerifyOtpStep(t1, email, code, later).tables;
            && Login(t2, email, password, verify) == Ok(Bearer(email))
            && VerifyOtpStep(t2, email, code, later).reply.HttpError?
  {
    var uid := NextId(UserIds(t.users));
    var u2 := NewUser(uid, email, Some(hash(password)), "email", name, true, now);
    VerifiedSignupTables(t, email, password, name, hash, code, now, later);
    FindUserByEmailAppend(t.users, u2);
    SignupFacts(t, email, password, name, hash, code, now);
    FindOnlyOtp(t.otps, Otp(NextId(OtpIds(t.otps)), uid, code, now + OtpLifetime, now), later);
  }

  /** The tables after a sign-up and its verification: the user verified, the code consumed. */
  lemma VerifiedSignupTables(t: Tables, email: string, password: string, name: Option<string>,
                             hash: string -> string, code: string, now: Time, later: Time)
    requires Valid(t) && FindUserByEmail(t.users, email).None?
    requires later < now + OtpLifetime
    ensures var t1 := SignupStep(t, email, password, name, hash, code, now).tables;
            var t2 := VerifyOtpStep(t1, email, code, later).tables;
            && t2.users == t.users + [NewUser(NextId(UserIds(t.users)), email, Some(hash(password)), "email", name, true, now)]
            && t2.otps == t.otps
  {
    var t1 := SignupStep(t, email, password, name, hash, code, now).tables;
    SignupFacts(t, email, password, name, hash, code, now);
    FindOnlyOtp(t.otps, t1.otps[|t.otps|], later);
    assert t1.users[|t.users|].id == NextId(UserIds(t.users));
  }

  // ---- The routes against the database ----

  method Signup(db: Db, email: string, password: string, name: Option<string>,
                hash: string -> string, code: string, now: Time) returns (reply: Reply<string>)
    modifies db
    ensures Step(db.State(), reply) == SignupStep(old(db.State()), email, password, name, hash, code, now)
  {
    if FindUserByEmail(db.users, email).Some? {
      return HttpError(400, "Email already registered");
    }
    var user := NewUser(NextId(UserIds(db.users)), email, Some(hash(password)), "email", name, false, now);
    db.users := db.users + [user];
    var otp := Otp(NextId(OtpIds(db.otps)), user.id, code, now + OtpLifetime, now);
    db.otps := db.otps + [otp];
    reply := Ok(SignupMessage);
  }

  method VerifyOtp(db: Db, email: string, code: string, now: Time) returns (reply: Reply<AccessToken>)
    modifies db
    ensures Step(db.State(), reply) == VerifyOtpStep(old(db.State()), email, code, now)
  {
    var u := FindUserByEmail(db.users, email);
    if u.None? {
      return HttpError(404, "User not found");
    }
    var user := db.users[u.value];
    var o := FindOtp(db.otps, user.id, code, now);
    if o.None? {
      return HttpError(400, "Invalid or expired OTP");
    }
    db.users := db.users[u.value := user.(isVerified := true)];
    db.otps := RemoveAt(db.otps, o.value);
    reply := Ok(Bearer(user.email));
  }

  method GoogleLogin(db: Db, identity: Option<GoogleIdentity>, now: Time) returns (reply: Reply<AccessToken>)
    modifies db
    ensures Step(db.State(), reply) == GoogleLoginStep(old(db.State()), identity, now)
  {
    if identity.None? {
      return HttpError(400, "Invalid Google token");
    }
    var id := identity.value;
    var found := FindUserByEmail(db.users, id.email);
    if found.None? {
      var user := NewUser(NextId(UserIds(db.users)), id.email, None, "google", id.name, true, now);
      db.users := db.users + [user];
      return Ok(Bearer(user.email));
    }
    var u := db.users[found.value];
    if u.authProvider == "email" && !u.isVerified {
      db.users := db.users[found.value := u.(isVerified := true)];
    }
    reply := Ok(Bearer(u.email));
  }
}
