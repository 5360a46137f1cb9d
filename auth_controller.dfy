/** Registration and login (backend/src/controllers/authController.ts) over
    the user collection. The hasher's salt and the token secret are
    parameters: randomness and configuration come from outside. */
module AuthController {
  import opened Text
  import opened Http
  import opened UserModel
  import Bcrypt
  import Jwt

  const RequiredMessage: string := "All fields are required"
  const EmailInUseMessage: string := "Email already in use"
  const InvalidCredentialsMessage: string := "Invalid credentials"

  /** The `{ id, name, email }` user view of a reply: no password. */
  datatype PublicUser = PublicUser(id: UserId, name: string, email: string)

  datatype Session = Session(token: string, user: PublicUser)

  /** The check registerUser makes before it saves: all three fields, then a
      free email. */
  function RegistrationError(users: map<UserId, User>, name: string, email: string, password: string): (e: Option<string>)
    ensures e.None? <==> name != "" && email != "" && password != "" && !EmailTaken(users, email)
    ensures e == Some(RequiredMessage) <==> name == "" || email == "" || password == ""
    ensures e == Some(EmailInUseMessage) <==> name != "" && email != "" && password != "" && EmailTaken(users, email)
  {
    if name == "" || email == "" || password == "" then Some(RequiredMessage)
    else if EmailTaken(users, email) then Some(EmailInUseMessage)
    else None
  }

  /** registerUser: on success exactly one user is added, with the password
      stored as its hash, and the reply carries a token for the new id. */
  method RegisterUser(db: UserTable, name: string, email: string, password: string, salt: nat, secret: nat)
    returns (r: Response<Session>)
    requires db.Valid()
    modifies db
    ensures db.Valid()
    ensures r.Failure? <==> RegistrationError(old(db.users), name, email, password).Some?
    ensures r.Failure? ==>
      && r == Failure(BadRequest, RegistrationError(old(db.users), name, email, password).value)
      && db.users == old(db.users)
    ensures r.Success? ==>
      && r.code == Created
      && r.body.user == PublicUser(r.body.user.id, name, email)
      && r.body.user.id !in old(db.users)
      && db.users == old(db.users)[r.body.user.id := User(name, email, Bcrypt.Hash(salt, password), "", [], [])]
      && r.body.token == Jwt.Issue(secret, r.body.user.id)
  {
    var error := RegistrationError(db.users, name, email, password);
    if error.Some? {
      r := Failure(BadRequest, error.value);
      return;
    }
    var id := db.Insert(User(name, email, password, "", [], []), salt);
    r := Success(Created, Session(Jwt.Issue(secret, id), PublicUser(id, name, email)));
  }

  /** The user a login succeeds for: the one holding the email, if the entered
      password matches its hash. */
  predicate CanLogIn(users: map<UserId, User>, id: UserId, email: string, password: string) {
    id in users && users[id].email == email && ComparePassword(users[id], password)
  }

  /** loginUser: read-only. An unknown email and a wrong password get the same
      reply; a success carries a token issued for the matched user. */
  method LoginUser(db: UserTable, email: string, password: string, secret: nat)
    returns (r: Response<Session>)
    requires db.Valid()
    ensures r.Success? <==> exists id :: CanLogIn(db.users, id, email, password)
    ensures r.Failure? ==> r == Failure(BadRequest, InvalidCredentialsMessage)
    ensures r.Success? ==>
      && r.code == Ok
      && CanLogIn(db.users, r.body.user.id, email, password)
      && r.body.user == PublicUser(r.body.user.id, db.users[r.body.user.id].name, email)
      && r.body.token == Jwt.Issue(secret, r.body.user.id)
  {
    var found := FindByEmail(db.users, email);
    if found.None? {
      assert forall id :: !CanLogIn(db.users, id, email, password);
      r := Failure(BadRequest, InvalidCredentialsMessage);
      return;
    }
    var uid := found.value;
    var user := db.users[uid];
    if !ComparePassword(user, password) {
      assert forall id :: CanLogIn(db.users, id, email, password) ==> id == uid;
      r := Failure(BadRequest, InvalidCredentialsMessage);
      return;
    }
    assert CanLogIn(db.users, uid, email, password);
    r := Success(Ok, Session(Jwt.Issue(secret, uid), PublicUser(uid, user.name, user.email)));
  }

  /** A user who registered with a password can log in with it, and gets a
      token for the id registration gave. */
  lemma RegisteredUserCanLogIn(users: map<UserId, User>, after: map<UserId, User>, id: UserId,
                                name: string, email: string, password: string, salt: nat)
    requires id !in users && !EmailTaken(users, email)
    requires after == users[id := User(name, email, Bcrypt.Hash(salt, password), "", [], [])]
    ensures CanLogIn(after, id, email, password)
    ensures forall other :: CanLogIn(after, other, email, password) ==> other == id
  {
    Bcrypt.CompareHash(salt, password, password);
  }
}
