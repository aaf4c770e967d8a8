/** The server's account endpoints: `register` adds a user under a new e-mail
    with a hashed password, and `login` checks a password against the stored
    hash and issues a signed token. The users table is a map keyed by e-mail.
    Hashing, hash comparison and token signing are parameters, and each
    request names the step, if any, at which an outside call throws. */
module Users {
  const UserExistsError: string := "Usuário já existe"
  const RegisterFailedError: string := "Erro no registro"
  const UserNotFoundError: string := "Usuário não encontrado"
  const WrongPasswordError: string := "Senha incorreta"
  const LoginFailedError: string := "Erro no login"
  const BadRequest: int := 400
  const Unauthorized: int := 401
  /** The lifetime written into every token. */
  const TokenLifetime: string := "1d"

  /** A row of the users table; `password` holds the hash. */
  datatype User = User(id: int, name: string, email: string, password: string)

  /** What the endpoints send back about a user: never the hash. */
  datatype PublicUser = PublicUser(id: int, name: string, email: string)

  datatype Session = Session(user: PublicUser, token: string)

  /** The JSON body sent: a value with status 200, or an error with its status. */
  datatype Reply<T> = Ok(value: T) | Error(status: int, error: string)

  /** Where a request's outside call throws, if anywhere. */
  datatype RegisterFault = RegisterNoFault | LookupFails | HashFails | InsertFails
  datatype LoginFault = LoginNoFault | FindFails | CompareFails | SignFails

  function Public(u: User): PublicUser {
    PublicUser(u.id, u.name, u.email)
  }

  /** Every row sits under its own e-mail, and ids are below the next one given out. */
  predicate Valid(users: map<string, User>, nextId: int) {
    forall e :: e in users ==> users[e].email == e && users[e].id < nextId
  }

  // ---------------------------------------------------------------- register

  /** The reply `register` sends for a table and a request. */
  function RegisterReply(users: map<string, User>, nextId: int, name: string, email: string,
                         fault: RegisterFault): (r: Reply<PublicUser>)
    ensures r.Ok? <==> fault == RegisterNoFault && email !in users
    ensures r.Ok? ==> r.value == PublicUser(nextId, name, email)
    ensures r.Error? ==> r.status == BadRequest
    ensures r.Error? ==> (r.error == UserExistsError <==> fault != LookupFails && email in users)
    ensures r.Error? && r.error != UserExistsError ==> r.error == RegisterFailedError
  {
    if fault == LookupFails then Error(BadRequest, RegisterFailedError)
    else if email in users then Error(BadRequest, UserExistsError)
    else if fault != RegisterNoFault then Error(BadRequest, RegisterFailedError)
    else Ok(PublicUser(nextId, name, email))
  }

  /** The table after `register`: the new row only when the reply is a success. */
  function RegisterTable(users: map<string, User>, nextId: int, name: string, email: string,
                         password: string, hash: string -> string, fault: RegisterFault)
    : (after: map<string, User>)
    ensures RegisterReply(users, nextId, name, email, fault).Error? ==> after == users
    ensures RegisterReply(users, nextId, name, email, fault).Ok? ==>
              && after.Keys == users.Keys + {email}
              && after[email] == User(nextId, name, email, hash(password))
              && forall e :: e in users ==> after[e] == users[e]
  {
    if RegisterReply(users, nextId, name, email, fault).Ok?
    then users[email := User(nextId, name, email, hash(password))]
    else users
  }

  /** Registering keeps every row under its own e-mail with an id already given out. */
  lemma RegisterKeepsValid(users: map<string, User>, nextId: int, name: string, email: string,
                           password: string, hash: string -> string, fault: RegisterFault)
    requires Valid(users, nextId)
    ensures var ok := RegisterReply(users, nextId, name, email, fault).Ok?;
            Valid(RegisterTable(users, nextId, name, email, password, hash, fault),
                  if ok then nextId + 1 else nextId)
  {
  }

  /** An e-mail is never registered twice: the second attempt is refused and
      the first row stays. */
  lemma SecondRegistrationRefused(users: map<string, User>, nextId: int, name: string, email: string,
                                  password: string, hash: string -> string,
                                  name2: string, password2: string, fault2: RegisterFault)
    requires email !in users && fault2 != LookupFails
    ensures var after := RegisterTable(users, nextId, name, email, password, hash, RegisterNoFault);
            && RegisterReply(after, nextId + 1, name2, email, fault2) == Error(BadRequest, UserExistsError)
            && RegisterTable(after, nextId + 1, name2, email, password2, hash, fault2) == after
            && after[email].name == name
  {
  }

  // ------------------------------------------------------------------- login

  /** The reply `login` sends. `compare(password, hash)` is the password check;
      `sign(id, email, lifetime)` makes the token. */
  function LoginReply(users: map<string, User>, email: string, password: string,
                      compare: (string, string) -> bool, sign: (int, string, string) -> string,
                      fault: LoginFault): (r: Reply<Session>)
    ensures r.Ok? <==> && fault !in {FindFails, CompareFails, SignFails}
                       && email in users && compare(password, users[email].password)
    ensures r.Ok? ==> && r.value.user == Public(users[email])
                      && r.value.token == sign(users[email].id, users[email].email, TokenLifetime)
    ensures r.Error? && r.status == Unauthorized ==>
              || (r.error == UserNotFoundError && email !in users)
              || (r.error == WrongPasswordError && email in users && !compare(password, users[email].password))
    ensures fault != FindFails && email !in users ==> r == Error(Unauthorized, UserNotFoundError)
    ensures r.Error? && r.status == BadRequest ==> r.error == LoginFailedError
    ensures r.Error? ==> r.status == BadRequest || r.status == Unauthorized
    ensures fault == FindFails ==> r == Error(BadRequest, LoginFailedError)
    ensures fault == CompareFails && email in users ==> r == Error(BadRequest, LoginFailedError)
    ensures fault == SignFails && email in users && compare(password, users[email].password) ==> r == Error(BadRequest, LoginFailedError)
    ensures fault !in {FindFails, CompareFails} && email in users && !compare(password, users[email].password) ==> r == Error(Unauthorized, WrongPasswordError)
  {
    if fault == FindFails then Error(BadRequest, LoginFailedError)
    else if email !in users then Error(Unauthorized, UserNotFoundError)
    else
      var user := users[email];
      if fault == CompareFails then Error(BadRequest, LoginFailedError)
      else if !compare(password, user.password) then Error(Unauthorized, WrongPasswordError)
      else if fault == SignFails then Error(BadRequest, LoginFailedError)
      else Ok(Session(Public(user), sign(user.id, user.email, TokenLifetime)))
  }

  /** Register, then log in with the same password: when the comparison accepts a
      password against its own hash, the login succeeds as the new user. */
  lemma RegisterThenLogin(users: map<string, User>, nextId: int, name: string, email: string,
                          password: string, hash: string -> string,
                          compare: (string, string) -> bool, sign: (int, string, string) -> string)
    requires email !in users
    requires compare(password, hash(password))
    ensures var after := RegisterTable(users, nextId, name, email, password, hash, RegisterNoFault);
            LoginReply(after, email, password, compare, sign, LoginNoFault)
              == Ok(Session(PublicUser(nextId, name, email), sign(nextId, email, TokenLifetime)))
  {
  }

  /** A password the comparison refuses is told "Senha incorreta", not "not found". */
  lemma WrongPasswordRefused(users: map<string, User>, email: string, password: string,
                             compare: (string, string) -> bool, sign: (int, string, string) -> string)
    requires email in users && !compare(password, users[email].password)
    ensures LoginReply(users, email, password, compare, sign, LoginNoFault)
         == Error(Unauthorized, WrongPasswordError)
  {
  }

  // ------------------------------------------------------------------- store

  /** The users table as the server sees it, with the id sequence. */
  class UserStore {
    var users: map<string, User>
    var nextId: int

    constructor()
      ensures users == map[] && nextId == 1
      ensures Valid(users, nextId)
    {
      users := map[];
      nextId := 1;
    }

    /** `register`: look the e-mail up, hash the password, insert the row. */
    method Register(name: string, email: string, password: string, hash: string -> string,
                    fault: RegisterFault)
      returns (reply: Reply<PublicUser>)
      modifies this
      ensures reply == RegisterReply(old(users), old(nextId), name, email, fault)
      ensures users == RegisterTable(old(users), old(nextId), name, email, password, hash, fault)
      ensures nextId == if reply.Ok? then old(nextId) + 1 else old(nextId)
      ensures old(Valid(users, nextId)) ==> Valid(users, nextId)
    {
      if Valid(users, nextId) {
        RegisterKeepsValid(users, nextId, name, email, password, hash, fault);
      }
      if fault == LookupFails {
        return Error(BadRequest, RegisterFailedError);
      }
      if email in users {
        return Error(BadRequest, UserExistsError);
      }
      if fault == HashFails {
        return Error(BadRequest, RegisterFailedError);
      }
      var hashedPassword := hash(password);
      if fault == InsertFails {
        return Error(BadRequest, RegisterFailedError);
      }
      var id := nextId;
      users := users[email := User(id, name, email, hashedPassword)];
      nextId := nextId + 1;
      reply := Ok(PublicUser(id, name, email));
    }

    /** `login`: reads the table and changes nothing. */
    method Login(email: string, password: string, compare: (string, string) -> bool,
                 sign: (int, string, string) -> string, fault: LoginFault)
      returns (reply: Reply<Session>)
      ensures reply == LoginReply(users, email, password, compare, sign, fault)
    {
      if fault == FindFails {
        return Error(BadRequest, LoginFailedError);
      }
      if email !in users {
        return Error(Unauthorized, UserNotFoundError);
      }
      var user := users[email];
      if fault == CompareFails {
        return Error(BadRequest, LoginFailedError);
      }
      var isValidPassword := compare(password, user.password);
      if !isValidPassword {
        return Error(Unauthorized, WrongPasswordError);
      }
      if fault == SignFails {
        return Error(BadRequest, LoginFailedError);
      }
      var token := sign(user.id, user.email, TokenLifetime);
      reply := Ok(Session(PublicUser(user.id, user.name, user.email), token));
    }
  }
}
