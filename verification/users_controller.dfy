/**
 The user handlers: `getusers`, `signup` and `login`. Password hashing,
 password verification and token signing are functions supplied by the
 caller; `None` from one of them stands for the call throwing.
 */
module UsersController {

  import opened Options
  import opened Http
  import opened UserModel
  import opened Ledger

  /** The claims a token is signed over. */
  datatype Claims = Claims(userId: UserId, email: string)

  datatype UsersJson =
    | AuthJson(userId: UserId, email: string, token: string)   // `{userId, email, token}`
    | UsersListJson(users: map<UserId, PublicUser>)            // `{users: [...]}`

  datatype UsersOutcome = UsersOutcome(store: Store, reply: Reply<UsersJson>)

  const FetchUsersFailedMessage := "Fetching users failed,please try again later"
  const SignupLookupFailedMessage := "Signing up failed, please try again later."
  const UserExistsMessage := "User exists already, please login instead."
  const SignupFailedMessage := "Signing up failed. please try again"
  const LoginLookupFailedMessage := "Logging in failed, please try again later."
  const UnknownEmailMessage := "User not found. Please sign up first."
  const VerifyFailedMessage := "Could not check password, please try again."
  const InvalidCredentialsMessage := "Invalid credentials, could not log you in."
  const LoginTokenFailedMessage := "Logging up failed. please try again"

  // ---------------------------------------------------------------- getusers

  function GetUsers(s: Store, readFails: bool): (r: Reply<UsersJson>)
    ensures readFails ==> r == Passed(HttpError(FetchUsersFailedMessage, Status(500)))
    // every user, with every field but the password
    ensures !readFails ==> r.Sent? && r.status == 200 && r.body.UsersListJson?
    ensures r.Sent? ==>
              && r.body.users.Keys == s.users.Keys
              && forall uid | uid in s.users ::
                   var p := r.body.users[uid];
                   && p.name == s.users[uid].name && p.email == s.users[uid].email
                   && p.image == s.users[uid].image && p.places == s.users[uid].places
  {
    if readFails then Passed(HttpError(FetchUsersFailedMessage, Status(500)))
    else Sent(200, UsersListJson(map uid | uid in s.users :: Public(s.users[uid])))
  }

  // ---------------------------------------------------------------- signup

  /** The body fields and the stored file's path (`req.file`). */
  datatype SignupRequest = SignupRequest(name: string, email: string, password: string, file: Option<string>)

  /** Whether the route's validation passed (its rules are not part of this
      model), whether the email lookup threw, the id the new user gets, and
      whether the save succeeded. */
  datatype SignupEnv = SignupEnv(validationPassed: bool, lookupFails: bool, newUserId: UserId, saveOk: bool)

  /** Every step up to and including the save succeeds. */
  predicate SignupSaves(s: Store, req: SignupRequest, env: SignupEnv) {
    && env.validationPassed
    && !env.lookupFails
    && !EmailTaken(s.users, req.email)
    && req.file.Some?
    && SchemaValid(req.name, req.email, req.password, req.file.value)
    && env.newUserId !in s.users
    && env.saveOk
  }

  function Signup(s: Store, req: SignupRequest, env: SignupEnv,
                  hash: string -> string, sign: Claims -> Option<string>): (r: UsersOutcome)
    ensures !env.validationPassed ==> r == UsersOutcome(s, Passed(HttpError(InvalidInputsMessage, Status(422))))
    ensures env.validationPassed && env.lookupFails ==>
              r == UsersOutcome(s, Passed(HttpError(SignupLookupFailedMessage, Status(500))))
    ensures env.validationPassed && !env.lookupFails && EmailTaken(s.users, req.email) ==>
              r == UsersOutcome(s, Passed(HttpError(UserExistsMessage, Status(422))))
    // a request without a file throws at `req.file.path`, outside any `try`
    ensures env.validationPassed && !env.lookupFails && !EmailTaken(s.users, req.email) && req.file.None? ==>
              r == UsersOutcome(s, Uncaught)
    // a save the schema refuses, or that fails, answers 500 with nothing written
    ensures (&& env.validationPassed && !env.lookupFails && !EmailTaken(s.users, req.email) && req.file.Some?
             && (!SchemaValid(req.name, req.email, req.password, req.file.value)
                 || env.newUserId in s.users || !env.saveOk)) ==>
              r == UsersOutcome(s, Passed(HttpError(SignupFailedMessage, Status(500))))
    // a failed signing after the save answers 500, with the user already saved
    ensures SignupSaves(s, req, env) && sign(Claims(env.newUserId, req.email)).None? ==>
              r.reply == Passed(HttpError(SignupFailedMessage, Status(500)))
    // the store gains exactly one user, and only when the save succeeds
    ensures !SignupSaves(s, req, env) ==> r.store == s && !r.reply.Sent?
    ensures SignupSaves(s, req, env) ==>
              && r.store.places == s.places
              && env.newUserId in r.store.users
              && r.store.users == s.users[env.newUserId := r.store.users[env.newUserId]]
              // stored with the hashed password, the uploaded file and no places
              && r.store.users[env.newUserId] == User(req.name, req.email, hash(req.password), req.file.value, [])
    // 201 with the new id, its email and a token over exactly those two
    ensures r.reply.Sent? <==> SignupSaves(s, req, env) && sign(Claims(env.newUserId, req.email)).Some?
    ensures r.reply.Sent? ==>
              r.reply == Sent(201, AuthJson(env.newUserId, req.email, sign(Claims(env.newUserId, req.email)).value))
  {
    if !env.validationPassed then
      UsersOutcome(s, Passed(HttpError(InvalidInputsMessage, Status(422))))
    else if env.lookupFails then
      UsersOutcome(s, Passed(HttpError(SignupLookupFailedMessage, Status(500))))
    else if EmailTaken(s.users, req.email) then
      UsersOutcome(s, Passed(HttpError(UserExistsMessage, Status(422))))
    else if req.file.None? then
      // `req.file.path` on a missing file throws before any `try`
      UsersOutcome(s, Uncaught)
    else
      var created := User(req.name, req.email, hash(req.password), req.file.value, []);
      if !SchemaValid(req.name, req.email, req.password, req.file.value)
         || env.newUserId in s.users || !env.saveOk then
        UsersOutcome(s, Passed(HttpError(SignupFailedMessage, Status(500))))
      else
        var s' := s.(users := s.users[env.newUserId := created]);
        match sign(Claims(env.newUserId, req.email))
        case None => UsersOutcome(s', Passed(HttpError(SignupFailedMessage, Status(500))))
        case Some(token) => UsersOutcome(s', Sent(201, AuthJson(env.newUserId, req.email, token)))
  }

  /** A signup keeps the ownership invariant and the uniqueness of emails. */
  lemma SignupKeepsInvariants(s: Store, req: SignupRequest, env: SignupEnv,
                              hash: string -> string, sign: Claims -> Option<string>)
    requires Ownership(s) && UniqueEmails(s.users)
    ensures Ownership(Signup(s, req, env, hash, sign).store)
    ensures UniqueEmails(Signup(s, req, env, hash, sign).store.users)
  {
  }

  // ---------------------------------------------------------------- login

  /** The user `findOne({email})` returns, if any. */
  ghost function FindByEmail(users: map<UserId, User>, email: string): (r: Option<UserId>)
    ensures r.None? <==> !EmailTaken(users, email)
    ensures r.Some? ==> r.value in users && users[r.value].email == email
  {
    if EmailTaken(users, email) then
      var uid :| uid in users && users[uid].email == email; Some(uid)
    else None
  }

  /** With unique emails the lookup finds the one user holding the email. */
  lemma FindByEmailFindsOwner(users: map<UserId, User>, uid: UserId)
    requires UniqueEmails(users) && uid in users
    ensures FindByEmail(users, users[uid].email) == Some(uid)
  {
  }

  /** `verify(plain, digest)` is the document's `verifyPassword`. */
  ghost function Login(s: Store, email: string, password: string, lookupFails: bool,
                       verify: (string, string) -> Option<bool>, sign: Claims -> Option<string>): (r: Reply<UsersJson>)
    ensures lookupFails ==> r == Passed(HttpError(LoginLookupFailedMessage, Status(500)))
    ensures !lookupFails && !EmailTaken(s.users, email) ==> r == Passed(HttpError(UnknownEmailMessage, Status(404)))
    // with unique emails, the one user holding the email decides the answer:
    // 500 when verification throws, 403 when it fails, 500 when signing fails,
    // and otherwise 200 with that user's token
    ensures !lookupFails && UniqueEmails(s.users) ==>
              forall uid | uid in s.users && s.users[uid].email == email ::
                && (verify(password, s.users[uid].password).None? ==>
                      r == Passed(HttpError(VerifyFailedMessage, Status(500))))
                && (verify(password, s.users[uid].password) == Some(false) ==>
                      r == Passed(HttpError(InvalidCredentialsMessage, Status(403))))
                && (verify(password, s.users[uid].password) == Some(true) && sign(Claims(uid, email)).None? ==>
                      r == Passed(HttpError(LoginTokenFailedMessage, Status(500))))
                && (verify(password, s.users[uid].password) == Some(true) && sign(Claims(uid, email)).Some? ==>
                      r == Sent(200, AuthJson(uid, email, sign(Claims(uid, email)).value)))
    // a token is issued only for the user holding the email, after verification succeeds
    ensures r.Sent? ==>
              && r.status == 200 && r.body.AuthJson?
              && r.body.userId in s.users
              && r.body.email == email == s.users[r.body.userId].email
              && verify(password, s.users[r.body.userId].password) == Some(true)
              && sign(Claims(r.body.userId, email)) == Some(r.body.token)
  {
    if lookupFails then Passed(HttpError(LoginLookupFailedMessage, Status(500)))
    else match FindByEmail(s.users, email)
      case None => Passed(HttpError(UnknownEmailMessage, Status(404)))
      case Some(uid) =>
        var u := s.users[uid];
        match verify(password, u.password)
        case None => Passed(HttpError(VerifyFailedMessage, Status(500)))
        case Some(valid) =>
          if !valid then Passed(HttpError(InvalidCredentialsMessage, Status(403)))
          else match sign(Claims(uid, u.email))
            case None => Passed(HttpError(LoginTokenFailedMessage, Status(500)))
            case Some(token) => Sent(200, AuthJson(uid, u.email, token))
  }

  /** Signing up and then logging in with the same credentials logs in as the
      new user, given a verifier that accepts a password against its own hash. */
  lemma SignupThenLogin(s: Store, req: SignupRequest, env: SignupEnv,
                        hash: string -> string, verify: (string, string) -> Option<bool>,
                        sign: Claims -> Option<string>)
    requires UniqueEmails(s.users)
    requires SignupSaves(s, req, env)
    requires verify(req.password, hash(req.password)) == Some(true)
    requires sign(Claims(env.newUserId, req.email)).Some?
    ensures Login(Signup(s, req, env, hash, sign).store, req.email, req.password, false, verify, sign)
         == Sent(200, AuthJson(env.newUserId, req.email, sign(Claims(env.newUserId, req.email)).value))
  {
  }
}
