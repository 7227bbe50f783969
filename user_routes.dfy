/**
 * Registration and login: the rules the two auth handlers apply to the `users`
 * collection, with bcrypt and token signing treated as abstract operations.
 */
module UserRoutes {
  import opened Wrappers
  import opened Auth
  import opened ObjectIds

  /**
   * A bcrypt hash. Hashing is modelled as collision-free: a hash remembers the
   * password it was made from, and `CompareHashAndPassword` succeeds exactly
   * for that password.
   */
  datatype PasswordHash = Bcrypt(password: string)

  predicate HashMatches(h: PasswordHash, password: string) {
    h.password == password
  }

  /** A stored user (`models.User`). */
  datatype User = User(id: ObjectId, name: string, email: string, passwordHash: PasswordHash, role: string)

  /** What the handlers send back about a user: never the password hash. */
  datatype PublicUser = PublicUser(id: string, name: string, email: string, role: string)

  datatype RegisterRequest = RegisterRequest(name: string, email: string, password: string)
  datatype LoginRequest = LoginRequest(email: string, password: string)

  /** The claims of a login token; `exp` is in seconds since the Unix epoch. */
  datatype TokenClaims = TokenClaims(id: string, name: string, email: string, role: string, exp: int)

  /** A token signed with the server secret. */
  datatype SignedToken = Signed(claims: TokenClaims)

  datatype Session = Session(token: SignedToken, user: PublicUser)

  const DefaultRole := "member"
  const FieldsRequired := "Name, email, and password are required"
  const EmailRegistered := "Email already registered"
  const InvalidCredentials := "Invalid email or password"
  const TokenLifetimeSeconds := 24 * 60 * 60

  function Public(u: User): PublicUser {
    PublicUser(u.id.hex, u.name, u.email, u.role)
  }

  predicate EmailTaken(users: seq<User>, email: string) {
    exists i :: 0 <= i < |users| && users[i].email == email
  }

  /** `CountDocuments({"email": email})`: how many stored users have that email. */
  function EmailCount(users: seq<User>, email: string): (n: nat)
    ensures n <= |users|
    ensures n > 0 <==> EmailTaken(users, email)
  {
    if users == [] then 0
    else
      var rest := EmailCount(users[1..], email);
      assert EmailTaken(users[1..], email) ==> EmailTaken(users, email) by {
        if EmailTaken(users[1..], email) {
          var i :| 0 <= i < |users[1..]| && users[1..][i].email == email;
          assert users[i + 1].email == email;
        }
      }
      (if users[0].email == email then 1 else 0) + rest
  }

  /** `FindOne({"email": email})`: the first stored user with that email. */
  function FirstWithEmail(users: seq<User>, email: string): (r: Option<User>)
    ensures r.None? <==> !EmailTaken(users, email)
    ensures r.Some? ==> exists i :: 0 <= i < |users| && users[i] == r.value && r.value.email == email &&
                                   forall j :: 0 <= j < i ==> users[j].email != email
  {
    if users == [] then None
    else if users[0].email == email then Some(users[0])
    else
      var r := FirstWithEmail(users[1..], email);
      assert r.Some? ==> exists i :: 0 <= i < |users[1..]| && users[1..][i] == r.value && r.value.email == email &&
                                       forall j :: 0 <= j < i ==> users[1..][j].email != email;
      if r.Some? then
        var i :| 0 <= i < |users[1..]| && users[1..][i] == r.value && r.value.email == email &&
                 forall j :: 0 <= j < i ==> users[1..][j].email != email;
        assert users[i + 1] == r.value;
        r
      else
        assert !EmailTaken(users[1..], email);
        assert forall i :: 1 <= i < |users| ==> users[i] == users[1..][i - 1];
        r
  }

  /** The credentials a login accepts: the first user with the email has a hash of the password. */
  predicate LoginAccepts(users: seq<User>, email: string, password: string) {
    var u := FirstWithEmail(users, email);
    u.Some? && HashMatches(u.value.passwordHash, password)
  }

  /** The claims login signs for a user at `nowSeconds`. */
  function ClaimsFor(u: User, nowSeconds: int): (c: TokenClaims)
    ensures c.exp == nowSeconds + TokenLifetimeSeconds
    ensures c.id == u.id.hex && c.role == u.role
    ensures c.name == u.name && c.email == u.email
  {
    TokenClaims(u.id.hex, u.name, u.email, u.role, nowSeconds + TokenLifetimeSeconds)
  }

  /** The claims the middleware reads back out of a verified login token. */
  function ReadBack(c: TokenClaims): Claims {
    Claims(Str(c.id), Str(c.role))
  }

  /** A token issued at login authenticates as that user with that role. */
  lemma LoginTokenAuthenticates(u: User, nowSeconds: int)
    ensures var locals := Locals(ReadBack(ClaimsFor(u, nowSeconds)).id, ReadBack(ClaimsFor(u, nowSeconds)).role);
      UserIdOf(locals) == Some(u.id.hex) && RoleOf(locals) == u.role
  {
  }

  /** The user a successful registration inserts. */
  function NewUser(req: RegisterRequest, id: ObjectId): (u: User)
    ensures u.role == DefaultRole && u.passwordHash == Bcrypt(req.password)
  {
    User(id, req.name, req.email, Bcrypt(req.password), DefaultRole)
  }

  lemma {:induction false} FirstWithEmailAppend(users: seq<User>, u: User, email: string)
    requires !EmailTaken(users, email)
    ensures FirstWithEmail(users + [u], email) == if u.email == email then Some(u) else None
    decreases |users|
  {
    if users == [] {
      assert [u][1..] == [];
    } else {
      assert (users + [u])[1..] == users[1..] + [u];
      assert !EmailTaken(users[1..], email) by {
        forall i | 0 <= i < |users[1..]|
          ensures users[1..][i].email != email
        {
          assert users[1..][i] == users[i + 1];
        }
      }
      FirstWithEmailAppend(users[1..], u, email);
    }
  }

  /** After registering with a fresh email, logging in accepts that password and no other. */
  lemma RegisterThenLogin(users: seq<User>, req: RegisterRequest, id: ObjectId, password: string)
    requires !EmailTaken(users, req.email)
    ensures LoginAccepts(users + [NewUser(req, id)], req.email, password) <==> password == req.password
  {
    FirstWithEmailAppend(users, NewUser(req, id), req.email);
  }

  /**
   * Right after a registration with a fresh email, that email and password are
   * accepted and the account login finds is the one just inserted, so the
   * session `Login` answers with is the new user's.
   */
  lemma LoginFindsNewUser(users: seq<User>, req: RegisterRequest, id: ObjectId)
    requires !EmailTaken(users, req.email)
    ensures LoginAccepts(users + [NewUser(req, id)], req.email, req.password)
    ensures FirstWithEmail(users + [NewUser(req, id)], req.email) == Some(NewUser(req, id))
  {
    FirstWithEmailAppend(users, NewUser(req, id), req.email);
  }

  /**
   * Login uses the first account with an email: a later account with the same
   * email (which the store admits when the count query fails) can never log in
   * with a different password.
   */
  lemma {:induction false} LaterDuplicateShadowed(users: seq<User>, later: User, password: string)
    requires EmailTaken(users, later.email)
    requires !HashMatches(FirstWithEmail(users, later.email).value.passwordHash, password)
    ensures !LoginAccepts(users + [later], later.email, password)
    decreases |users|
  {
    if users[0].email != later.email {
      assert (users + [later])[1..] == users[1..] + [later];
      assert EmailTaken(users[1..], later.email) by {
        var i :| 0 <= i < |users| && users[i].email == later.email;
        assert users[1..][i - 1] == users[i];
      }
      LaterDuplicateShadowed(users[1..], later, password);
    }
  }

  /** The `users` collection. */
  class UserStore {
    var users: seq<User>

    constructor (initial: seq<User>)
      ensures users == initial
    {
      users := initial;
    }

    /**
     * `POST /api/auth/register`. `countFails` is an error of the count query,
     * which the handler discards (the count then reads 0); `hashFails` is a
     * bcrypt error; `insertFails` an insert error.
     */
    method Register(body: Option<RegisterRequest>, newId: ObjectId, countFails: bool, hashFails: bool, insertFails: bool)
      returns (r: Reply<PublicUser>)
      modifies this
      ensures body.None? ==> r.ErrorReply? && r.status == StatusBadRequest && users == old(users)
      ensures body.Some? && (body.value.name == "" || body.value.email == "" || body.value.password == "") ==>
        r == ErrorReply(StatusBadRequest, FieldsRequired) && users == old(users)
      ensures body.Some? && body.value.name != "" && body.value.email != "" && body.value.password != "" ==>
        if !countFails && EmailTaken(old(users), body.value.email) then
          r == ErrorReply(StatusBadRequest, EmailRegistered) && users == old(users)
        else if hashFails || insertFails then
          r.ErrorReply? && r.status == StatusInternalServerError && users == old(users)
        else
          r == Reply(StatusCreated, Public(NewUser(body.value, newId))) &&
          users == old(users) + [NewUser(body.value, newId)]
    {
      if body.None? {
        return ErrorReply(StatusBadRequest, "body parse error");
      }
      var req := body.value;
      if req.name == "" || req.email == "" || req.password == "" {
        return ErrorReply(StatusBadRequest, FieldsRequired);
      }
      var count := if countFails then 0 else EmailCount(users, req.email);
      if count > 0 {
        return ErrorReply(StatusBadRequest, EmailRegistered);
      }
      if hashFails {
        return ErrorReply(StatusInternalServerError, "Failed to hash password");
      }
      var user := User(newId, req.name, req.email, Bcrypt(req.password), DefaultRole);
      if insertFails {
        return ErrorReply(StatusInternalServerError, "insert failed");
      }
      users := users + [user];
      r := Reply(StatusCreated, Public(user));
    }

    /** `POST /api/auth/login` at `nowSeconds`; `signFails` is a token-signing error. */
    method Login(body: Option<LoginRequest>, nowSeconds: int, signFails: bool) returns (r: Reply<Session>)
      ensures body.None? ==> r.ErrorReply? && r.status == StatusBadRequest
      ensures body.Some? && !LoginAccepts(users, body.value.email, body.value.password) ==>
        r == ErrorReply(StatusUnauthorized, InvalidCredentials)
      ensures body.Some? && LoginAccepts(users, body.value.email, body.value.password) && signFails ==>
        r.ErrorReply? && r.status == StatusInternalServerError
      ensures body.Some? && LoginAccepts(users, body.value.email, body.value.password) && !signFails ==>
        var u := FirstWithEmail(users, body.value.email).value;
        r == Reply(StatusOK, Session(Signed(ClaimsFor(u, nowSeconds)), Public(u)))
      ensures r.Reply? ==> body.Some? && LoginAccepts(users, body.value.email, body.value.password) && !signFails
    {
      if body.None? {
        return ErrorReply(StatusBadRequest, "body parse error");
      }
      var req := body.value;
      var found := FirstWithEmail(users, req.email);
      if found.None? {
        return ErrorReply(StatusUnauthorized, InvalidCredentials);
      }
      var user := found.value;
      if !HashMatches(user.passwordHash, req.password) {
        return ErrorReply(StatusUnauthorized, InvalidCredentials);
      }
      if signFails {
        return ErrorReply(StatusInternalServerError, "Failed to generate token");
      }
      r := Reply(StatusOK, Session(Signed(ClaimsFor(user, nowSeconds)), Public(user)));
    }
  }
}
