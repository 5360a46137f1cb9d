/** The User document (backend/src/models/User.ts): the schema, the unique
    email index, the pre-save hook that hashes a modified password, and
    `comparePassword`. The collection is an in-memory table keyed by id. */
module UserModel {
  import opened Text
  import Bcrypt

  type UserId = nat

  datatype Education = Education(degree: string, university: string)

  datatype Employment = Employment(company: string, role: string, experience: real)

  /** A stored user; `phone == ""` stands for the absent optional field. */
  datatype User = User(
    name: string,
    email: string,
    password: string,
    phone: string,
    education: seq<Education>,
    employment: seq<Employment>)

  /** The schema's required paths (a required String refuses the empty string). */
  predicate HasRequiredFields(u: User) {
    u.name != "" && u.email != "" && u.password != ""
  }

  /** The pre-save hook: hash the password when it was modified, otherwise
      leave the document as it is. */
  function PreSave(u: User, passwordModified: bool, salt: nat): (saved: User)
    ensures !passwordModified ==> saved == u
    ensures passwordModified ==> Bcrypt.IsHash(saved.password) && Bcrypt.Compare(u.password, saved.password)
    ensures saved.(password := u.password) == u
  {
    if passwordModified then
      Bcrypt.HashIsHash(salt, u.password);
      Bcrypt.CompareHash(salt, u.password, u.password);
      u.(password := Bcrypt.Hash(salt, u.password))
    else u
  }

  /** `user.comparePassword(entered)`: a stored value that is not a
      well-formed hash matches nothing. */
  predicate ComparePassword(u: User, entered: string)
    ensures ComparePassword(u, entered) ==> Bcrypt.IsHash(u.password)
  {
    Bcrypt.Compare(entered, u.password)
  }

  predicate EmailTaken(users: map<UserId, User>, email: string) {
    exists id :: id in users && users[id].email == email
  }

  /** The unique index on email. */
  predicate UniqueEmails(users: map<UserId, User>) {
    forall a, b :: a in users && b in users && users[a].email == users[b].email ==> a == b
  }

  /** `User.findOne({ email })`. */
  function FindByEmail(users: map<UserId, User>, email: string): (r: Option<UserId>)
    requires UniqueEmails(users)
    ensures r.Some? <==> EmailTaken(users, email)
    ensures r.Some? ==> r.value in users && users[r.value].email == email
  {
    if exists id :: id in users && users[id].email == email then
      var id :| id in users && users[id].email == email;
      Some(id)
    else None
  }

  /** The user collection. */
  class UserTable {
    var users: map<UserId, User>
    var nextId: UserId

    /** Ids below nextId are taken, emails are unique, every document has its
        required fields and a stored password is always a hash. */
    ghost predicate Valid()
      reads this
    {
      && (forall id :: id in users ==> id < nextId)
      && UniqueEmails(users)
      && (forall id :: id in users ==> HasRequiredFields(users[id]) && Bcrypt.IsHash(users[id].password))
    }

    constructor ()
      ensures Valid() && users == map[]
    {
      users := map[];
      nextId := 0;
    }

    /** `new User(u).save()`: a new document is saved under a fresh id, its
        password hashed by the pre-save hook. The unique index and the required
        validators are the precondition: the register handler checks both first. */
    method Insert(u: User, salt: nat) returns (id: UserId)
      requires Valid()
      requires HasRequiredFields(u) && !EmailTaken(users, u.email)
      modifies this
      ensures Valid()
      ensures id !in old(users) && users == old(users)[id := PreSave(u, true, salt)]
    {
      id := nextId;
      var saved := PreSave(u, true, salt);
      Bcrypt.HashIsHash(salt, u.password);
      users := users[id := saved];
      nextId := nextId + 1;
    }

    /** `user.save()` of an existing document: the pre-save hook runs, the
        email stays unique and the required fields stay filled. */
    method Save(id: UserId, u: User, passwordModified: bool, salt: nat)
      requires Valid() && id in users
      requires HasRequiredFields(u) && u.email == users[id].email
      requires passwordModified || Bcrypt.IsHash(u.password)
      modifies this
      ensures Valid()
      ensures users == old(users)[id := PreSave(u, passwordModified, salt)]
      ensures !passwordModified ==> users[id].password == u.password
    {
      users := users[id := PreSave(u, passwordModified, salt)];
    }
  }
}
