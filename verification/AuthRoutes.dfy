/** The login route and the credential check behind it. Password hashing,
    hash verification and token minting are done by libraries outside this
    model, so they are parameters: `hash` for `pwd_context.hash`, `verify`
    for `pwd_context.verify(password, hashed)` and `mint` for
    `create_access_token(claims, expiry)`. */
module AuthRoutes {
  import opened Wrappers
  import opened Models

  /** An entry of the in-memory user table the route reads. */
  datatype UserRecord = UserRecord(username: string, hashedPassword: string)

  type UserTable = map<string, UserRecord>

  datatype UserLogin = UserLogin(username: string, password: string)

  /** The claims handed to the token minter. */
  datatype Claims = Claims(sub: string)

  datatype Token = Token(accessToken: string, tokenType: string)

  /** The 401 of a failed login, with the challenge header of the Bearer
      scheme (section 3 of RFC 6750). */
  const LoginRejected := HttpError(401, "Incorrect username or password", map["WWW-Authenticate" := "Bearer"])

  /** The seeded table: one user "john" whose stored hash is that of "secret123". */
  function SeededUsers(hash: string -> string): (t: UserTable)
    ensures t.Keys == {"john"} && t["john"] == UserRecord("john", hash("secret123"))
  {
    map["john" := UserRecord("john", hash("secret123"))]
  }

  /** `authenticate_user`: None for an unknown username or a password that
      fails verification, the stored record otherwise. */
  function AuthenticateUser(users: UserTable, username: string, password: string, verify: (string, string) -> bool)
    : (r: Option<UserRecord>)
    ensures username !in users ==> r.None?
    ensures username in users && !verify(password, users[username].hashedPassword) ==> r.None?
    ensures r.Some? <==> username in users && verify(password, users[username].hashedPassword)
    ensures r.Some? ==> r.value == users[username]
  {
    if username !in users then None
    else
      var user := users[username];
      if !verify(password, user.hashedPassword) then None else Some(user)
  }

  /** `POST /auth/login`: a failed check is the 401 with the Bearer challenge;
      a passed one returns a "bearer" token minted for the stored username. */
  function LoginForAccessToken(
    users: UserTable, data: UserLogin, verify: (string, string) -> bool,
    mint: (Claims, int) -> string, expireMinutes: int): (r: Result<Token, HttpError>)
    ensures r.Failure? <==> AuthenticateUser(users, data.username, data.password, verify).None?
    ensures r.Failure? ==> r.error == LoginRejected
    ensures r.Success? ==> r.value.tokenType == "bearer"
    ensures r.Success? ==> r.value.accessToken == mint(Claims(users[data.username].username), expireMinutes)
  {
    match AuthenticateUser(users, data.username, data.password, verify)
    case None => Failure(LoginRejected)
    case Some(user) => Success(Token(mint(Claims(user.username), expireMinutes), "bearer"))
  }

  /** Against the seeded table, exactly "john" with a password verifying
      against the hash of "secret123" logs in, and the token's subject is
      "john". */
  lemma SeededLogin(
    hash: string -> string, data: UserLogin, verify: (string, string) -> bool,
    mint: (Claims, int) -> string, expireMinutes: int)
    ensures var r := LoginForAccessToken(SeededUsers(hash), data, verify, mint, expireMinutes);
      && (r.Success? <==> data.username == "john" && verify(data.password, hash("secret123")))
      && (r.Success? ==> r.value.accessToken == mint(Claims("john"), expireMinutes))
  {
  }
}
