/**
  Accounts (server/internal/user/service.go): registration, login, token
  refresh and the current user. The user table is a sequence of rows with
  an injected database failure; e-mail hashing and encryption, password
  hashing, UUID generation, the clock and JWT issuing are parameters.
 */
module Users {
  import opened Base
  import Auth

  /** The errors the service returns; `Failure` stands for any error it only passes on. */
  datatype Error =
    | ErrUserAlreadyExists
    | ErrInvalidCredentials
    | ErrUserNotFound
    | Token(tokenError: Auth.TokenError)
    | Failure(message: string)

  datatype UserEntity = UserEntity(
    id: Auth.UserId,
    email: string,           // encrypted
    emailHash: string,
    hashedPassword: string,
    createdAt: int,
    updatedAt: int)

  /** The e-mail and password of a registration or a login. */
  datatype Credentials = Credentials(email: string, password: string)

  datatype TokenPair = TokenPair(accessToken: string, refreshToken: string)

  /** `InternalTokenResponse`: both tokens and the access token's lifetime in seconds. */
  datatype Tokens = Tokens(accessToken: string, refreshToken: string, expiresIn: int)

  datatype UserResponse = UserResponse(id: string, email: string)

  /** The crypto service: deterministic hashing of e-mails, encryption, bcrypt. */
  datatype Crypto = Crypto(
    hashEmail: string -> string,
    encryptEmail: string -> Result<string, string>,
    decryptEmail: string -> Result<string, string>,
    hashPassword: string -> Result<string, string>,
    verifyPassword: (string, string) -> bool)

  /** The JWT service: issuing a pair, validating a refresh token, and the access-token lifetime. */
  datatype Jwt = Jwt(
    generateTokenPair: Auth.UserId -> Result<TokenPair, string>,
    validateRefreshToken: string -> Result<Auth.UserId, Auth.TokenError>,
    accessTokenTtlSeconds: int)

  /** The first row whose key is k, if any: the scan behind every single-row lookup. */
  function FirstWith<K(==)>(users: seq<UserEntity>, key: UserEntity -> K, k: K): (r: Option<UserEntity>)
    ensures r.Some? ==> r.value in users && key(r.value) == k
    ensures r.None? <==> forall u :: u in users ==> key(u) != k
  {
    if users == [] then None
    else if key(users[0]) == k then Some(users[0])
    else FirstWith(users[1..], key, k)
  }

  /** The key of `FindByEmailHash`. */
  function EmailHashOf(u: UserEntity): string { u.emailHash }

  /** The key of `FindByID`. */
  function IdOf(u: UserEntity): Auth.UserId { u.id }

  /**
    The users table. `fault`, when set, is the error every query returns;
    `createFault` is the error an insert returns.
   */
  class UserRepository {
    var users: seq<UserEntity>
    var fault: Option<string>
    var createFault: Option<string>

    constructor (users: seq<UserEntity>, fault: Option<string>, createFault: Option<string>)
      ensures this.users == users && this.fault == fault && this.createFault == createFault
    {
      this.users := users;
      this.fault := fault;
      this.createFault := createFault;
    }

    function ExistsByEmailHash(emailHash: string): Result<bool, Error>
      reads this
    {
      match fault
      case Some(e) => Err(Failure(e))
      case None => Ok(FirstWith(users, EmailHashOf, emailHash).Some?)
    }

    function FindByEmailHash(emailHash: string): Result<UserEntity, Error>
      reads this
    {
      match fault
      case Some(e) => Err(Failure(e))
      case None =>
        match FirstWith(users, EmailHashOf, emailHash)
        case Some(u) => Ok(u)
        case None => Err(ErrUserNotFound)
    }

    function FindById(id: Auth.UserId): Result<UserEntity, Error>
      reads this
    {
      match fault
      case Some(e) => Err(Failure(e))
      case None =>
        match FirstWith(users, IdOf, id)
        case Some(u) => Ok(u)
        case None => Err(ErrUserNotFound)
    }

    method Create(u: UserEntity) returns (err: Option<Error>)
      modifies this
      ensures fault == old(fault) && createFault == old(createFault)
      ensures err == (match createFault case Some(e) => Some(Failure(e)) case None => None)
      ensures users == if err.None? then old(users) + [u] else old(users)
    {
      match createFault
      case Some(e) =>
        err := Some(Failure(e));
      case None =>
        err := None;
        users := users + [u];
    }
  }

  /** The response built from a freshly issued pair. */
  function TokensOf(pair: TokenPair, jwt: Jwt): Tokens {
    Tokens(pair.accessToken, pair.refreshToken, jwt.accessTokenTtlSeconds)
  }

  /** Issuing a pair for a user: a JWT error is passed on. */
  function Issue(jwt: Jwt, id: Auth.UserId): (r: Result<Tokens, Error>)
    ensures r.Ok? ==> r.value.expiresIn == jwt.accessTokenTtlSeconds
  {
    match jwt.generateTokenPair(id)
    case Err(e) => Err(Failure(e))
    case Ok(pair) => Ok(TokensOf(pair, jwt))
  }

  /**
    The part of `Register` before the insert: the row to store, or the
    error that stops registration first. `newId` is what uuid.NewV7 gave
    and `now` the clock.
   */
  function NewUserRow(existing: Result<bool, Error>, crypto: Crypto, dto: Credentials,
                      newId: Result<Auth.UserId, string>, now: int): Result<UserEntity, Error>
  {
    match existing
    case Err(e) => Err(e)
    case Ok(taken) =>
      if taken then Err(ErrUserAlreadyExists)
      else match crypto.encryptEmail(dto.email)
        case Err(e) => Err(Failure(e))
        case Ok(encrypted) =>
          match crypto.hashPassword(dto.password)
          case Err(e) => Err(Failure(e))
          case Ok(hashed) =>
            match newId
            case Err(e) => Err(Failure(e))
            case Ok(id) => Ok(UserEntity(id, encrypted, crypto.hashEmail(dto.email), hashed, now, now))
  }

  /**
    `Register`: a taken e-mail hash is refused and nothing is stored;
    otherwise the new row is inserted, and tokens are issued only once the
    insert has succeeded.
   */
  method Register(repo: UserRepository, crypto: Crypto, jwt: Jwt, dto: Credentials,
                  newId: Result<Auth.UserId, string>, now: int) returns (r: Result<Tokens, Error>)
    modifies repo
    ensures repo.fault == old(repo.fault) && repo.createFault == old(repo.createFault)
    ensures var row := NewUserRow(old(repo.ExistsByEmailHash(crypto.hashEmail(dto.email))), crypto, dto, newId, now);
      match row
      case Err(e) => r == Err(e) && repo.users == old(repo.users)
      case Ok(u) =>
        match old(repo.createFault)
        case Some(e) => r == Err(Failure(e)) && repo.users == old(repo.users)
        case None => repo.users == old(repo.users) + [u] && r == Issue(jwt, u.id)
  {
    var emailHash := crypto.hashEmail(dto.email);
    var taken := repo.ExistsByEmailHash(emailHash);
    var row := NewUserRow(taken, crypto, dto, newId, now);
    if row.Err? {
      return Err(row.error);
    }
    var err := repo.Create(row.value);
    if err.Some? {
      return Err(err.value);
    }
    r := Issue(jwt, row.value.id);
  }

  /** A stored row holds the e-mail's hash, its ciphertext and the password's hash, with equal timestamps. */
  lemma NewUserRowContents(existing: Result<bool, Error>, crypto: Crypto, dto: Credentials,
                           newId: Result<Auth.UserId, string>, now: int)
    ensures var row := NewUserRow(existing, crypto, dto, newId, now);
      row.Ok? ==>
        && existing == Ok(false)
        && row.value.emailHash == crypto.hashEmail(dto.email)
        && crypto.encryptEmail(dto.email) == Ok(row.value.email)
        && crypto.hashPassword(dto.password) == Ok(row.value.hashedPassword)
        && newId == Ok(row.value.id)
        && row.value.createdAt == row.value.updatedAt == now
  {
  }

  /** An e-mail already in the table is refused with ErrUserAlreadyExists when the table answers. */
  lemma DuplicateEmailRefused(users: seq<UserEntity>, crypto: Crypto, dto: Credentials,
                              newId: Result<Auth.UserId, string>, now: int)
    requires exists u :: u in users && u.emailHash == crypto.hashEmail(dto.email)
    ensures NewUserRow(Ok(FirstWith(users, EmailHashOf, crypto.hashEmail(dto.email)).Some?), crypto, dto, newId, now)
      == Err(ErrUserAlreadyExists)
  {
  }

  /**
    `Login`: an unknown e-mail and a wrong password both give
    ErrInvalidCredentials; any other lookup error is passed on unchanged.
   */
  function Login(repo: UserRepository, crypto: Crypto, jwt: Jwt, dto: Credentials): (r: Result<Tokens, Error>)
    reads repo
    ensures r.Ok? ==> r.value.expiresIn == jwt.accessTokenTtlSeconds
  {
    match repo.FindByEmailHash(crypto.hashEmail(dto.email))
    case Err(e) => if e == ErrUserNotFound then Err(ErrInvalidCredentials) else Err(e)
    case Ok(user) =>
      if !crypto.verifyPassword(dto.password, user.hashedPassword) then Err(ErrInvalidCredentials)
      else Issue(jwt, user.id)
  }

  /**
    With the table answering, login fails with ErrInvalidCredentials exactly
    for an unknown e-mail or a wrong password; otherwise it issues a pair for
    the stored user's ID.
   */
  lemma LoginInvalidCredentials(repo: UserRepository, crypto: Crypto, jwt: Jwt, dto: Credentials)
    requires repo.fault.None?
    ensures var user := FirstWith(repo.users, EmailHashOf, crypto.hashEmail(dto.email));
      Login(repo, crypto, jwt, dto) == Err(ErrInvalidCredentials) <==>
        user.None? || !crypto.verifyPassword(dto.password, user.value.hashedPassword)
    ensures var user := FirstWith(repo.users, EmailHashOf, crypto.hashEmail(dto.email));
      user.Some? && crypto.verifyPassword(dto.password, user.value.hashedPassword) ==>
        Login(repo, crypto, jwt, dto) == Issue(jwt, user.value.id)
  {
  }

  /** A database failure during login reaches the caller unchanged. */
  lemma LoginPassesFailureOn(repo: UserRepository, crypto: Crypto, jwt: Jwt, dto: Credentials)
    requires repo.fault.Some?
    ensures Login(repo, crypto, jwt, dto) == Err(Failure(repo.fault.value))
  {
  }

  /** `RefreshTokens`: a valid refresh token for a user that still exists gets a new pair for the same user. */
  function RefreshTokens(repo: UserRepository, jwt: Jwt, refreshToken: string): (r: Result<Tokens, Error>)
    reads repo
    ensures r.Ok? ==> r.value.expiresIn == jwt.accessTokenTtlSeconds
  {
    match jwt.validateRefreshToken(refreshToken)
    case Err(e) => Err(Token(e))
    case Ok(id) =>
      match repo.FindById(id)
      case Err(e) => Err(e)
      case Ok(_) => Issue(jwt, id)
  }

  /**
    A refresh succeeds only for a valid token of a user still in the table,
    and issues for that user; an invalid token gives the token error, and a
    failed lookup of a valid token's user gives the lookup's error.
   */
  lemma RefreshNeedsValidTokenAndUser(repo: UserRepository, jwt: Jwt, refreshToken: string)
    ensures RefreshTokens(repo, jwt, refreshToken).Ok? ==>
      && jwt.validateRefreshToken(refreshToken).Ok?
      && repo.FindById(jwt.validateRefreshToken(refreshToken).value).Ok?
      && RefreshTokens(repo, jwt, refreshToken) == Issue(jwt, jwt.validateRefreshToken(refreshToken).value)
    ensures jwt.validateRefreshToken(refreshToken).Err? ==>
      RefreshTokens(repo, jwt, refreshToken) == Err(Token(jwt.validateRefreshToken(refreshToken).error))
    ensures var id := jwt.validateRefreshToken(refreshToken);
      id.Ok? ==>
        RefreshTokens(repo, jwt, refreshToken) ==
          if repo.FindById(id.value).Err? then Err(repo.FindById(id.value).error) else Issue(jwt, id.value)
  {
  }

  /** `GetCurrentUser`: the user's ID as text and the decrypted e-mail; lookup and decryption errors are passed on. */
  function GetCurrentUser(repo: UserRepository, crypto: Crypto, id: Auth.UserId): (r: Result<UserResponse, Error>)
    reads repo
    ensures r.Ok? ==> r.value.id == id
  {
    match repo.FindById(id)
    case Err(e) => Err(e)
    case Ok(user) =>
      match crypto.decryptEmail(user.email)
      case Err(e) => Err(Failure(e))
      case Ok(email) => Ok(UserResponse(user.id, email))
  }

  /**
    A database failure is passed on; with the table answering, a user it does
    not hold is reported as ErrUserNotFound and a stored one gets back its
    decrypted e-mail or the decryption error.
   */
  lemma CurrentUserLookup(repo: UserRepository, crypto: Crypto, id: Auth.UserId)
    ensures repo.fault.Some? ==> GetCurrentUser(repo, crypto, id) == Err(Failure(repo.fault.value))
    ensures repo.fault.None? && FirstWith(repo.users, IdOf, id).None? ==> GetCurrentUser(repo, crypto, id) == Err(ErrUserNotFound)
    ensures repo.fault.None? && FirstWith(repo.users, IdOf, id).Some? ==>
      var decrypted := crypto.decryptEmail(FirstWith(repo.users, IdOf, id).value.email);
      GetCurrentUser(repo, crypto, id) ==
        if decrypted.Ok? then Ok(UserResponse(id, decrypted.value)) else Err(Failure(decrypted.error))
  {
  }
}
