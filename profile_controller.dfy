/** The profile handlers (backend/src/controllers/profileController.ts):
    the field merge of createOrUpdateProfile and the password-free view of
    getProfile. The requester's id comes from the auth gate. */
module ProfileController {
  import opened Text
  import opened Http
  import opened UserModel

  const UserNotFoundMessage: string := "User not found"

  /** The request body; an absent name or phone is "", an absent list is None
      (an empty list is a present, truthy value in JavaScript). */
  datatype ProfileBody = ProfileBody(
    name: string,
    phone: string,
    education: Option<seq<Education>>,
    employment: Option<seq<Employment>>)

  /** The four `field || user.field` assignments: a supplied truthy value
      replaces the stored one, anything else keeps it; email and password are
      not touched. */
  function MergeProfile(u: User, body: ProfileBody): (m: User)
    ensures m.email == u.email && m.password == u.password
    ensures m.name == (if body.name != "" then body.name else u.name)
    ensures m.phone == (if body.phone != "" then body.phone else u.phone)
    ensures m.education == (if body.education.Some? then body.education.value else u.education)
    ensures m.employment == (if body.employment.Some? then body.employment.value else u.employment)
    ensures HasRequiredFields(u) ==> HasRequiredFields(m)
  {
    u.(
      name := if body.name != "" then body.name else u.name,
      phone := if body.phone != "" then body.phone else u.phone,
      education := if body.education.Some? then body.education.value else u.education,
      employment := if body.employment.Some? then body.employment.value else u.employment)
  }

  /** Applying the same update twice gives the same user as applying it once. */
  lemma MergeProfileIdempotent(u: User, body: ProfileBody)
    ensures MergeProfile(MergeProfile(u, body), body) == MergeProfile(u, body)
  {
  }

  /** createOrUpdateProfile: 404 for an unknown id; otherwise the merged user
      is saved (the pre-save hook leaves the unmodified password hash alone)
      and sent back as saved. */
  method CreateOrUpdateProfile(db: UserTable, userId: UserId, body: ProfileBody)
    returns (r: Response<User>)
    requires db.Valid()
    modifies db
    ensures db.Valid()
    ensures userId !in old(db.users) ==> r == Failure(NotFound, UserNotFoundMessage) && db.users == old(db.users)
    ensures userId in old(db.users) ==>
      && r == Success(Ok, MergeProfile(old(db.users)[userId], body))
      && db.users == old(db.users)[userId := r.body]
  {
    if userId !in db.users {
      r := Failure(NotFound, UserNotFoundMessage);
      return;
    }
    var merged := MergeProfile(db.users[userId], body);
    db.Save(userId, merged, false, 0);
    r := Success(Ok, merged);
  }

  /** A user as `select("-password")` returns it. */
  datatype Profile = Profile(
    id: UserId,
    name: string,
    email: string,
    phone: string,
    education: seq<Education>,
    employment: seq<Employment>)

  function WithoutPassword(id: UserId, u: User): Profile {
    Profile(id, u.name, u.email, u.phone, u.education, u.employment)
  }

  /** getProfile: the stored user minus its password, or 404. */
  function GetProfile(db: UserTable, userId: UserId): (r: Response<Profile>)
    reads db
    ensures r.Failure? <==> userId !in db.users
    ensures r.Failure? ==> r == Failure(NotFound, UserNotFoundMessage)
    ensures r.Success? ==>
      && r.code == Ok && r.body.id == userId
      && (var u := db.users[userId];
          u == User(r.body.name, r.body.email, u.password, r.body.phone, r.body.education, r.body.employment))
  {
    if userId !in db.users then Failure(NotFound, UserNotFoundMessage)
    else Success(Ok, WithoutPassword(userId, db.users[userId]))
  }

  /** The projection drops only the password: two users with the same profile
      view differ at most in their password. */
  lemma WithoutPasswordLosesOnlyPassword(id: UserId, u: User, v: User)
    requires WithoutPassword(id, u) == WithoutPassword(id, v)
    ensures u == v.(password := u.password)
  {
  }
}
