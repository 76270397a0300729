/**
 * The browser-only account store of src/lib/local-auth.ts: a user list and
 * a session kept in `localStorage`, sign-up with ordered validation and
 * case-insensitive duplicate rejection, sign-in by password-hash
 * equality, and a session that lasts seven days and is dropped lazily
 * when found expired.
 *
 * `localStorage` is the map `storage` from key to the value stored there,
 * already decoded from JSON; a value that does not parse is `Unparsable`.
 * `Date.now()` is the parameter `now`; the random ids and tokens are the
 * parameters `freshId` and `token`.
 */
module LocalAuth {
  import opened Wrappers
  import opened JsText

  const USERS_KEY: string := "mindcash_users"
  const SESSION_KEY: string := "mindcash_user_session"

  /** Seven days in milliseconds. */
  const SESSION_LIFETIME: int := 7 * 24 * 60 * 60 * 1000

  const SALT: string := "mindcash_salt"

  const MSG_REQUIRED: string := "E-mail e senha são obrigatórios"
  const MSG_INVALID_EMAIL: string := "Por favor, digite um e-mail válido"
  const MSG_SHORT_PASSWORD: string := "A senha deve ter pelo menos 6 caracteres"
  const MSG_DUPLICATE: string := "Já existe uma conta com este e-mail. Faça login."
  const MSG_SIGNUP_OK: string := "Conta criada com sucesso!"
  const MSG_SIGNUP_UNEXPECTED: string := "Erro inesperado ao criar conta. Tente novamente."
  const MSG_BAD_CREDENTIALS: string := "E-mail ou senha incorretos"
  const MSG_SIGNIN_OK: string := "Login realizado com sucesso!"
  const MSG_SIGNIN_UNEXPECTED: string := "Erro inesperado ao fazer login. Tente novamente."
  const MSG_SIGNOUT_OK: string := "Logout realizado com sucesso!"

  // ---------------------------------------------------------------------
  // Password hashing

  /** The Base64 text of a string: distinct strings have distinct encodings. */
  datatype Digest = Base64Of(text: string)

  /** `btoa` accepts only strings whose characters fit in one byte. */
  predicate Latin1(s: string) {
    forall i :: 0 <= i < |s| ==> s[i] as int <= 0xFF
  }

  /** `hashPassword`: `btoa(password + salt)`; `None` where `btoa` throws. */
  function HashPassword(password: string): (h: Option<Digest>)
    ensures h.Some? <==> Latin1(password)
  {
    var salted := password + SALT;
    if Latin1(password) then
      assert forall i :: |password| <= i < |salted| ==> salted[i] == SALT[i - |password|];
      Some(Base64Of(salted))
    else None
  }

  /** `verifyPassword`; `None` where hashing throws. */
  function VerifyPassword(password: string, hash: Digest): Option<bool> {
    match HashPassword(password)
    case None => None
    case Some(h) => Some(h == hash)
  }

  /** Different passwords never share a hash. */
  lemma HashInjective(p: string, q: string)
    requires HashPassword(p).Some? && HashPassword(q).Some?
    requires HashPassword(p) == HashPassword(q)
    ensures p == q
  {
    assert p + SALT == q + SALT;
    assert |p| == |q|;
    assert p == (p + SALT)[..|p|];
    assert q == (q + SALT)[..|q|];
  }

  /** A password verifies against its own hash, and only against it. */
  lemma VerifyOwnHash(p: string, q: string)
    requires Latin1(p)
    ensures VerifyPassword(p, HashPassword(p).value) == Some(true)
    ensures Latin1(q) && q != p ==> VerifyPassword(q, HashPassword(p).value) == Some(false)
  {
    if Latin1(q) && q != p && VerifyPassword(q, HashPassword(p).value) == Some(true) {
      HashInjective(p, q);
    }
  }

  // ---------------------------------------------------------------------
  // Stored records

  datatype LocalUser = LocalUser(id: string, email: string, password: Digest, fullName: Option<string>, createdAt: int)

  datatype SessionData = SessionData(user: LocalUser, token: string, expiresAt: int)

  datatype Stored = UsersRecord(users: seq<LocalUser>) | SessionRecord(session: SessionData) | Unparsable

  type Storage = map<string, Stored>

  /** Each key holds its own kind of record, or text that does not parse. */
  predicate WellShaped(st: Storage) {
    && (USERS_KEY in st ==> !st[USERS_KEY].SessionRecord?)
    && (SESSION_KEY in st ==> !st[SESSION_KEY].UsersRecord?)
  }

  /** `getUsers`: the stored list, or none when it is missing or does not parse. */
  function UsersIn(st: Storage): seq<LocalUser> {
    if USERS_KEY in st && st[USERS_KEY].UsersRecord? then st[USERS_KEY].users else []
  }

  predicate SameEmail(a: string, b: string) {
    Lower(a) == Lower(b)
  }

  /** No two stored users share an email, ignoring case. */
  predicate DistinctEmails(users: seq<LocalUser>) {
    forall i, j :: 0 <= i < j < |users| ==> !SameEmail(users[i].email, users[j].email)
  }

  /** `users.find(u => u.email.toLowerCase() === email.toLowerCase())` */
  function FindByEmail(users: seq<LocalUser>, email: string): (r: Option<LocalUser>)
    ensures r.None? <==> forall i :: 0 <= i < |users| ==> !SameEmail(users[i].email, email)
    ensures r.Some? ==>
      exists i :: (0 <= i < |users| && users[i] == r.value && SameEmail(r.value.email, email) &&
                   forall j :: 0 <= j < i ==> !SameEmail(users[j].email, email))
  {
    if users == [] then None
    else if SameEmail(users[0].email, email) then Some(users[0])
    else
      var r := FindByEmail(users[1..], email);
      assert forall i :: 0 < i < |users| ==> users[i] == users[1..][i - 1];
      r
  }

  /** With distinct emails the first match of `find` is the only one: any stored account whose email matches is the one found. */
  lemma FindByEmailUnique(users: seq<LocalUser>, email: string, i: int)
    requires DistinctEmails(users)
    requires 0 <= i < |users| && SameEmail(users[i].email, email)
    ensures FindByEmail(users, email) == Some(users[i])
  {
    var r := FindByEmail(users, email);
    var k :| 0 <= k < |users| && users[k] == r.value && SameEmail(r.value.email, email) &&
             forall j :: 0 <= j < k ==> !SameEmail(users[j].email, email);
    if k < i {
      assert SameEmail(users[k].email, users[i].email);
      assert false;
    }
  }

  /** Looking up in a longer list finds the same user, or the appended one when none matched before. */
  lemma {:induction false} FindByEmailAppend(users: seq<LocalUser>, u: LocalUser, email: string)
    ensures FindByEmail(users, email).Some? ==> FindByEmail(users + [u], email) == FindByEmail(users, email)
    ensures FindByEmail(users, email).None? && SameEmail(u.email, email) ==> FindByEmail(users + [u], email) == Some(u)
  {
    if users != [] {
      FindByEmailAppend(users[1..], u, email);
      assert (users + [u])[1..] == users[1..] + [u];
    }
  }

  /** The session a stored record holds, unless it has expired; it is still valid at exactly `expiresAt`. */
  function LiveSession(st: Storage, now: int): (s: Option<SessionData>)
    ensures s.Some? ==> now <= s.value.expiresAt
  {
    if SESSION_KEY in st && st[SESSION_KEY].SessionRecord? && now <= st[SESSION_KEY].session.expiresAt
    then Some(st[SESSION_KEY].session)
    else None
  }

  predicate SessionExpired(st: Storage, now: int) {
    SESSION_KEY in st && st[SESSION_KEY].SessionRecord? && now > st[SESSION_KEY].session.expiresAt
  }

  /** The public view of an account (`User` with `user_metadata.full_name`). */
  datatype AuthUser = AuthUser(id: string, email: string, fullName: Option<string>)

  function Public(u: LocalUser): AuthUser {
    AuthUser(u.id, u.email, u.fullName)
  }

  /** `ApiResponse<User>` */
  datatype Response = Success(data: Option<AuthUser>, message: string) | Failure(error: string)

  /** A response together with the storage it leaves behind. */
  datatype Outcome = Outcome(response: Response, storage: Storage)

  // ---------------------------------------------------------------------
  // Sign-up, sign-in

  /** The sign-up checks, in order; the first that fails gives the message. */
  function SignUpCheck(email: string, password: string): (error: Option<string>)
    ensures error == Some(MSG_REQUIRED) <==> email == "" || password == ""
    ensures error == Some(MSG_INVALID_EMAIL) <==> email != "" && password != "" && '@' !in email
    ensures error == Some(MSG_SHORT_PASSWORD) <==>
      email != "" && password != "" && '@' in email && Utf16Length(password) < 6
    ensures error.None? <==> email != "" && password != "" && '@' in email && Utf16Length(password) >= 6
  {
    if email == "" || password == "" then Some(MSG_REQUIRED)
    else if '@' !in email then Some(MSG_INVALID_EMAIL)
    else if Utf16Length(password) < 6 then Some(MSG_SHORT_PASSWORD)
    else None
  }

  /** The session `saveSession` stores for a user at `now`. */
  function NewSession(u: LocalUser, token: string, now: int): SessionData {
    SessionData(u, token, now + SESSION_LIFETIME)
  }

  /** What `signUp` answers and leaves in storage. */
  function SignUpSpec(st: Storage, email: string, password: string, fullName: Option<string>,
                      freshId: string, now: int, token: string): Outcome
  {
    var check := SignUpCheck(email, password);
    if check.Some? then Outcome(Failure(check.value), st)
    else if FindByEmail(UsersIn(st), email).Some? then Outcome(Failure(MSG_DUPLICATE), st)
    else match HashPassword(password)
      case None => Outcome(Failure(MSG_SIGNUP_UNEXPECTED), st)
      case Some(h) =>
        var u := LocalUser(freshId, Lower(email), h, fullName, now);
        Outcome(Success(Some(Public(u)), MSG_SIGNUP_OK),
                st[USERS_KEY := UsersRecord(UsersIn(st) + [u])][SESSION_KEY := SessionRecord(NewSession(u, token, now))])
  }

  /** What `signIn` answers and leaves in storage. */
  function SignInSpec(st: Storage, email: string, password: string, now: int, token: string): Outcome {
    if email == "" || password == "" then Outcome(Failure(MSG_REQUIRED), st)
    else match FindByEmail(UsersIn(st), email)
      case None => Outcome(Failure(MSG_BAD_CREDENTIALS), st)
      case Some(u) =>
        match VerifyPassword(password, u.password)
        case None => Outcome(Failure(MSG_SIGNIN_UNEXPECTED), st)
        case Some(false) => Outcome(Failure(MSG_BAD_CREDENTIALS), st)
        case Some(true) =>
          Outcome(Success(Some(Public(u)), MSG_SIGNIN_OK), st[SESSION_KEY := SessionRecord(NewSession(u, token, now))])
  }

  /**
   * A rejected sign-up changes nothing. Sign-up succeeds exactly when the
   * checks pass, the email is new (ignoring case) and every character of
   * the password fits in one byte; a longer character gets the unexpected
   * error. One that passes the checks with an
   * email already taken (ignoring case) is rejected as a duplicate. A
   * successful one appends exactly one user, with the email lower-cased
   * and the hashed password, and opens a seven-day session for it.
   */
  lemma SignUpSpecProperties(st: Storage, email: string, password: string, fullName: Option<string>,
                             freshId: string, now: int, token: string)
    ensures var o := SignUpSpec(st, email, password, fullName, freshId, now, token);
      && (o.response.Failure? ==> o.storage == st)
      && (o.response.Success? <==>
            SignUpCheck(email, password).None? && FindByEmail(UsersIn(st), email).None? && Latin1(password))
      && (SignUpCheck(email, password).None? && FindByEmail(UsersIn(st), email).None? && !Latin1(password) ==>
            o.response == Failure(MSG_SIGNUP_UNEXPECTED))
      && (SignUpCheck(email, password).Some? ==> o.response == Failure(SignUpCheck(email, password).value))
      && (SignUpCheck(email, password).None? &&
          (exists i :: 0 <= i < |UsersIn(st)| && SameEmail(UsersIn(st)[i].email, email)) ==>
            o.response == Failure(MSG_DUPLICATE))
      && (o.response.Success? ==>
            && |UsersIn(o.storage)| == |UsersIn(st)| + 1
            && UsersIn(o.storage)[..|UsersIn(st)|] == UsersIn(st)
            && var u := UsersIn(o.storage)[|UsersIn(st)|];
               && u.email == Lower(email) && Some(u.password) == HashPassword(password)
               && LiveSession(o.storage, now) == Some(SessionData(u, token, now + SESSION_LIFETIME)))
  {
    var o := SignUpSpec(st, email, password, fullName, freshId, now, token);
    if o.response.Success? {
      var u := LocalUser(freshId, Lower(email), HashPassword(password).value, fullName, now);
      assert UsersIn(o.storage) == UsersIn(st) + [u];
    }
  }

  /** Sign-up keeps every email in the store distinct, ignoring case. */
  lemma SignUpKeepsEmailsDistinct(st: Storage, email: string, password: string, fullName: Option<string>,
                                  freshId: string, now: int, token: string)
    requires DistinctEmails(UsersIn(st))
    ensures DistinctEmails(UsersIn(SignUpSpec(st, email, password, fullName, freshId, now, token).storage))
  {
    var o := SignUpSpec(st, email, password, fullName, freshId, now, token);
    if o.response.Success? {
      var users := UsersIn(st);
      var u := LocalUser(freshId, Lower(email), HashPassword(password).value, fullName, now);
      var after := users + [u];
      assert UsersIn(o.storage) == after;
      LowerIdempotent(email);
      forall i, j | 0 <= i < j < |after|
        ensures !SameEmail(after[i].email, after[j].email)
      {
        if j == |users| {
          assert after[i] == users[i];
          assert !SameEmail(users[i].email, email);
        }
      }
    }
  }

  /**
   * Sign-in succeeds exactly when the first account with the email
   * (ignoring case) has the password's hash; an unknown email and a wrong
   * password get the same answer.
   */
  lemma SignInSpecProperties(st: Storage, email: string, password: string, now: int, token: string)
    ensures var o := SignInSpec(st, email, password, now, token);
      var found := FindByEmail(UsersIn(st), email);
      && (o.response.Success? <==>
            email != "" && password != "" && found.Some? && HashPassword(password) == Some(found.value.password))
      && (o.response.Failure? ==> o.storage == st)
      && (o.response.Success? ==> LiveSession(o.storage, now) == Some(SessionData(found.value, token, now + SESSION_LIFETIME)))
      && (email != "" && password != "" && found.None? ==> o.response == Failure(MSG_BAD_CREDENTIALS))
      && (email != "" && password != "" && Latin1(password) && found.Some? && HashPassword(password) != Some(found.value.password) ==>
            o.response == Failure(MSG_BAD_CREDENTIALS))
  {
  }

  /** An account just created can be signed into with the same email and password, at any later time. */
  lemma SignUpThenSignIn(st: Storage, email: string, password: string, fullName: Option<string>,
                         freshId: string, now: int, token: string, later: int, token2: string)
    requires SignUpSpec(st, email, password, fullName, freshId, now, token).response.Success?
    ensures SignInSpec(SignUpSpec(st, email, password, fullName, freshId, now, token).storage,
                       email, password, later, token2).response.Success?
  {
    var o := SignUpSpec(st, email, password, fullName, freshId, now, token);
    var u := LocalUser(freshId, Lower(email), HashPassword(password).value, fullName, now);
    assert UsersIn(o.storage) == UsersIn(st) + [u];
    LowerIdempotent(email);
    FindByEmailAppend(UsersIn(st), u, email);
    VerifyOwnHash(password, password);
  }

  /** A session opened at `t` is live through `t` plus seven days and gone one millisecond later. */
  lemma SessionLifetime(st: Storage, u: LocalUser, token: string, t: int, now: int)
    ensures var s := st[SESSION_KEY := SessionRecord(NewSession(u, token, t))];
      && (t <= now <= t + SESSION_LIFETIME ==> LiveSession(s, now).Some?)
      && (now > t + SESSION_LIFETIME ==> LiveSession(s, now).None? && SessionExpired(s, now))
  {
  }

  // ---------------------------------------------------------------------
  // The service over `localStorage`

  class LocalAuthService {
    var storage: Storage

    /** Every key holds its kind of record and the accounts have distinct emails. */
    predicate Valid()
      reads this
    {
      WellShaped(storage) && DistinctEmails(UsersIn(storage))
    }

    constructor (initial: Storage)
      ensures storage == initial
    {
      storage := initial;
    }

    /** `getUsers` */
    function GetUsers(): (users: seq<LocalUser>)
      reads this
      ensures users == UsersIn(storage)
    {
      UsersIn(storage)
    }

    /** `saveSession`: stores a session for the user, expiring seven days from `now`. */
    method SaveSession(u: LocalUser, now: int, token: string) returns (t: string)
      modifies this`storage
      ensures storage == old(storage)[SESSION_KEY := SessionRecord(SessionData(u, token, now + SESSION_LIFETIME))]
      ensures t == token
      ensures old(WellShaped(storage)) ==> WellShaped(storage)
      ensures UsersIn(storage) == UsersIn(old(storage))
    {
      storage := storage[SESSION_KEY := SessionRecord(SessionData(u, token, now + SESSION_LIFETIME))];
      t := token;
    }

    /** `signUp` */
    method SignUp(email: string, password: string, fullName: Option<string>,
                  freshId: string, now: int, token: string) returns (r: Response)
      modifies this`storage
      ensures Outcome(r, storage) == SignUpSpec(old(storage), email, password, fullName, freshId, now, token)
      ensures old(Valid()) ==> Valid()
    {
      var check := SignUpCheck(email, password);
      if check.Some? {
        return Failure(check.value);
      }
      var users := GetUsers();
      if FindByEmail(users, email).Some? {
        return Failure(MSG_DUPLICATE);
      }
      var hash := HashPassword(password);
      if hash.None? {
        return Failure(MSG_SIGNUP_UNEXPECTED);
      }
      var u := LocalUser(freshId, Lower(email), hash.value, fullName, now);
      users := users + [u];
      storage := storage[USERS_KEY := UsersRecord(users)];
      var _ := SaveSession(u, now, token);
      if old(Valid()) {
        SignUpKeepsEmailsDistinct(old(storage), email, password, fullName, freshId, now, token);
      }
      return Success(Some(Public(u)), MSG_SIGNUP_OK);
    }

    /** `signIn` */
    method SignIn(email: string, password: string, now: int, token: string) returns (r: Response)
      modifies this`storage
      ensures Outcome(r, storage) == SignInSpec(old(storage), email, password, now, token)
      ensures old(Valid()) ==> Valid()
    {
      if email == "" || password == "" {
        return Failure(MSG_REQUIRED);
      }
      var found := FindByEmail(GetUsers(), email);
      if found.None? {
        return Failure(MSG_BAD_CREDENTIALS);
      }
      var ok := VerifyPassword(password, found.value.password);
      if ok.None? {
        return Failure(MSG_SIGNIN_UNEXPECTED);
      }
      if !ok.value {
        return Failure(MSG_BAD_CREDENTIALS);
      }
      var _ := SaveSession(found.value, now, token);
      return Success(Some(Public(found.value)), MSG_SIGNIN_OK);
    }

    /** `signOut`: drops the session; the accounts stay. */
    method SignOut() returns (r: Response)
      modifies this`storage
      ensures storage == old(storage) - {SESSION_KEY}
      ensures r == Success(None, MSG_SIGNOUT_OK)
      ensures LiveSession(storage, 0).None? && forall now :: LiveSession(storage, now).None?
      ensures UsersIn(storage) == UsersIn(old(storage))
      ensures old(Valid()) ==> Valid()
    {
      storage := storage - {SESSION_KEY};
      r := Success(None, MSG_SIGNOUT_OK);
    }

    /** `getCurrentSession`: the live session, deleting an expired one on the way. */
    method GetCurrentSession(now: int) returns (s: Option<SessionData>)
      modifies this`storage
      ensures s == LiveSession(old(storage), now)
      ensures storage == if SessionExpired(old(storage), now) then old(storage) - {SESSION_KEY} else old(storage)
      ensures LiveSession(storage, now) == s
      ensures old(Valid()) ==> Valid()
    {
      if SESSION_KEY !in storage || !storage[SESSION_KEY].SessionRecord? {
        return None;
      }
      var data := storage[SESSION_KEY].session;
      if now > data.expiresAt {
        storage := storage - {SESSION_KEY};
        return None;
      }
      return Some(data);
    }

    /** `getCurrentUser`: the public view of the live session's user; an expired session is deleted on the way. */
    method GetCurrentUser(now: int) returns (u: Option<AuthUser>)
      modifies this`storage
      ensures u == if LiveSession(old(storage), now).Some? then Some(Public(LiveSession(old(storage), now).value.user)) else None
      ensures storage == if SessionExpired(old(storage), now) then old(storage) - {SESSION_KEY} else old(storage)
      ensures old(Valid()) ==> Valid()
    {
      var s := GetCurrentSession(now);
      if s.None? {
        return None;
      }
      return Some(Public(s.value.user));
    }

    /** `isAuthenticated`: a live session exists; an expired session is deleted on the way. */
    method IsAuthenticated(now: int) returns (b: bool)
      modifies this`storage
      ensures b <==> LiveSession(old(storage), now).Some?
      ensures storage == if SessionExpired(old(storage), now) then old(storage) - {SESSION_KEY} else old(storage)
      ensures old(Valid()) ==> Valid()
    {
      var s := GetCurrentSession(now);
      b := s.Some?;
    }
  }
}
