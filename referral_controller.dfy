/** The referral handlers (backend/src/controllers/referralController.ts):
    create, the public feed, the requester's own list, update and delete.
    Every handler behind the auth gate receives the requester's id from it.
    Each mutating handler either leaves the table as it was and returns an
    error, or changes exactly one record. */
module ReferralController {
  import opened Text
  import opened Http
  import opened ReferralModel
  import UserModel

  const RequiredMessage: string := "Title, company, and description are required"
  const NotFoundMessage: string := "Referral not found"
  const ForbiddenMessage: string := "Unauthorized"
  const ServerErrorMessage: string := "Server error"
  const DeletedMessage: string := "Referral deleted successfully"

  /** The request body of create and update; an absent field is "". */
  datatype Body = Body(title: string, company: string, description: string, status: string)

  /** JavaScript's `given || stored` on strings. */
  function Pick(given: string, stored: string): string {
    if given != "" then given else stored
  }

  /** The document createReferral saves, or the error it answers with:
      400 for a missing required field, 500 when the enum validator refuses
      the supplied status at save time. */
  function NewReferral(owner: UserModel.UserId, body: Body, now: nat): (r: Response<Referral>)
    ensures r.Failure? && r.code == BadRequest <==> body.title == "" || body.company == "" || body.description == ""
    ensures r.Failure? && r.code == ServerError <==>
      body.title != "" && body.company != "" && body.description != ""
      && body.status != "" && ParseStatus(body.status).None?
    ensures r.Success? ==> r.code == Created && HasRequiredFields(r.body)
    ensures r.Success? ==>
      && r.body.userId == owner && r.body.title == body.title
      && r.body.company == body.company && r.body.description == body.description
    ensures r.Success? ==>
      && (body.status == "" ==> r.body.status == DefaultStatus)
      && (body.status != "" ==> StatusName(r.body.status) == body.status)
    ensures r.Success? ==> r.body.createdAt == now && r.body.updatedAt == now
  {
    if body.title == "" || body.company == "" || body.description == "" then
      Failure(BadRequest, RequiredMessage)
    else
      var status := ParseStatus(Pick(body.status, StatusName(DefaultStatus)));
      if status.None? then Failure(ServerError, ServerErrorMessage)
      else Success(Created, Referral(owner, body.title, body.company, body.description, status.value, now, now))
  }

  /** The four assignments of updateReferral followed by save: a field takes
      the supplied value only when it is non-empty; the owner and the creation
      time never change; the update time moves only when a field changed. */
  function MergeReferral(stored: Referral, body: Body, now: nat): (r: Response<Referral>)
    ensures r.Failure? <==> body.status != "" && ParseStatus(body.status).None?
    ensures r.Failure? ==> r == Failure(ServerError, ServerErrorMessage)
    ensures r.Success? ==> r.code == Ok && r.body.userId == stored.userId && r.body.createdAt == stored.createdAt
    ensures r.Success? ==>
      && r.body.title == (if body.title != "" then body.title else stored.title)
      && r.body.company == (if body.company != "" then body.company else stored.company)
      && r.body.description == (if body.description != "" then body.description else stored.description)
      && r.body.status == (if body.status != "" then ParseStatus(body.status).value else stored.status)
    ensures r.Success? && HasRequiredFields(stored) ==> HasRequiredFields(r.body)
    ensures r.Success? ==>
      r.body.updatedAt == (if r.body.(updatedAt := stored.updatedAt) == stored then stored.updatedAt else now)
  {
    var status := if body.status == "" then Some(stored.status) else ParseStatus(body.status);
    if status.None? then Failure(ServerError, ServerErrorMessage)
    else
      var merged := stored.(
        title := Pick(body.title, stored.title),
        company := Pick(body.company, stored.company),
        description := Pick(body.description, stored.description),
        status := status.value);
      Success(Ok, merged.(updatedAt := if merged == stored then stored.updatedAt else now))
  }

  /** Applying the same update twice gives the same referral as applying it once. */
  lemma MergeIdempotent(stored: Referral, body: Body, now1: nat, now2: nat)
    requires MergeReferral(stored, body, now1).Success?
    ensures MergeReferral(MergeReferral(stored, body, now1).body, body, now2) == MergeReferral(stored, body, now1)
  {
  }

  datatype Access = Allowed | Missing | NotOwner

  /** The ownership guard: the existence check comes first, then the owner check. */
  function Guard(docs: map<ReferralId, Referral>, id: ReferralId, requester: UserModel.UserId): (a: Access)
    ensures a == Missing <==> id !in docs
    ensures a == NotOwner <==> id in docs && docs[id].userId != requester
    ensures a == Allowed <==> id in docs && docs[id].userId == requester
  {
    if id !in docs then Missing
    else if docs[id].userId != requester then NotOwner
    else Allowed
  }

  /** The reply of a guard refusal: 404 for a missing record, 403 for another owner's. */
  function Refusal(a: Access): (f: Response<Referral>)
    requires a != Allowed
    ensures f.Failure? && (f.code == NotFound <==> a == Missing) && (f.code == Forbidden <==> a == NotOwner)
  {
    match a
    case Missing => Failure(NotFound, NotFoundMessage)
    case NotOwner => Failure(Forbidden, ForbiddenMessage)
  }

  /** What updateReferral answers; the record it saves is the body of a success. */
  function UpdateOutcome(docs: map<ReferralId, Referral>, id: ReferralId, requester: UserModel.UserId,
                         body: Body, now: nat): (r: Response<Referral>)
    ensures id !in docs ==> r == Failure(NotFound, NotFoundMessage)
    ensures id in docs && docs[id].userId != requester ==> r == Failure(Forbidden, ForbiddenMessage)
    ensures r.Success? ==> id in docs && docs[id].userId == requester && r.body.userId == requester
    ensures id in docs && docs[id].userId == requester ==> r == MergeReferral(docs[id], body, now)
  {
    var access := Guard(docs, id, requester);
    if access != Allowed then Refusal(access) else MergeReferral(docs[id], body, now)
  }

  /** What deleteReferral answers. */
  function DeleteOutcome(docs: map<ReferralId, Referral>, id: ReferralId, requester: UserModel.UserId): (r: Response<string>)
    ensures r.Success? <==> id in docs && docs[id].userId == requester
    ensures r.Failure? && r.code == NotFound <==> id !in docs
    ensures r.Failure? && r.code == Forbidden <==> id in docs && docs[id].userId != requester
  {
    match Guard(docs, id, requester)
    case Missing => Failure(NotFound, NotFoundMessage)
    case NotOwner => Failure(Forbidden, ForbiddenMessage)
    case Allowed => Success(Ok, DeletedMessage)
  }

  /** createReferral. */
  method CreateReferral(db: ReferralTable, requester: UserModel.UserId, body: Body, now: nat)
    returns (r: Response<(ReferralId, Referral)>)
    requires db.Valid()
    modifies db
    ensures db.Valid()
    ensures r.Failure? ==> db.docs == old(db.docs) && NewReferral(requester, body, now) == Failure(r.code, r.message)
    ensures r.Success? ==>
      && r.code == Created && NewReferral(requester, body, now) == Success(Created, r.body.1)
      && r.body.0 !in old(db.docs) && db.docs == old(db.docs)[r.body.0 := r.body.1]
  {
    var draft := NewReferral(requester, body, now);
    if draft.Failure? {
      r := Failure(draft.code, draft.message);
      return;
    }
    var id := db.Insert(draft.body);
    r := Success(Created, (id, draft.body));
  }

  /** updateReferral. */
  method UpdateReferral(db: ReferralTable, id: ReferralId, requester: UserModel.UserId, body: Body, now: nat)
    returns (r: Response<Referral>)
    requires db.Valid()
    modifies db
    ensures db.Valid()
    ensures r == UpdateOutcome(old(db.docs), id, requester, body, now)
    ensures db.docs == if r.Success? then old(db.docs)[id := r.body] else old(db.docs)
  {
    var access := Guard(db.docs, id, requester);
    if access != Allowed {
      r := Refusal(access);
      return;
    }
    r := MergeReferral(db.docs[id], body, now);
    if r.Success? {
      db.Save(id, r.body);
    }
  }

  /** deleteReferral: only the owner's request removes the record, and only it. */
  method DeleteReferral(db: ReferralTable, id: ReferralId, requester: UserModel.UserId)
    returns (r: Response<string>)
    requires db.Valid()
    modifies db
    ensures db.Valid()
    ensures r == DeleteOutcome(old(db.docs), id, requester)
    ensures db.docs == if r.Success? then old(db.docs) - {id} else old(db.docs)
  {
    var access := Guard(db.docs, id, requester);
    match access
    case Missing => r := Failure(NotFound, NotFoundMessage);
    case NotOwner => r := Failure(Forbidden, ForbiddenMessage);
    case Allowed =>
      db.Delete(id);
      r := Success(Ok, DeletedMessage);
  }

  /** getUserReferrals: `Referral.find({ userId })`. */
  function GetUserReferrals(db: ReferralTable, requester: UserModel.UserId): (own: map<ReferralId, Referral>)
    reads db
    ensures forall id :: id in own <==> id in db.docs && db.docs[id].userId == requester
    ensures forall id :: id in own ==> own[id] == db.docs[id]
  {
    OwnedBy(db.docs, requester)
  }

  function OwnedBy(docs: map<ReferralId, Referral>, owner: UserModel.UserId): map<ReferralId, Referral> {
    map id | id in docs && docs[id].userId == owner :: docs[id]
  }

  /** Saving a new referral adds it to its owner's list and to nobody else's. */
  lemma OwnedByAfterInsert(docs: map<ReferralId, Referral>, id: ReferralId, r: Referral, owner: UserModel.UserId)
    requires id !in docs
    ensures OwnedBy(docs[id := r], owner) == if r.userId == owner then OwnedBy(docs, owner)[id := r] else OwnedBy(docs, owner)
  {
    var after := OwnedBy(docs[id := r], owner);
    var expected := if r.userId == owner then OwnedBy(docs, owner)[id := r] else OwnedBy(docs, owner);
    assert after.Keys == expected.Keys;
  }

  /** Deleting a referral removes it from every owner's list and changes nothing else. */
  lemma OwnedByAfterDelete(docs: map<ReferralId, Referral>, id: ReferralId, owner: UserModel.UserId)
    ensures OwnedBy(docs - {id}, owner) == OwnedBy(docs, owner) - {id}
  {
    assert OwnedBy(docs - {id}, owner).Keys == (OwnedBy(docs, owner) - {id}).Keys;
  }

  /** The owner view `populate("userId", "name email")` embeds; null when the owner is gone. */
  datatype OwnerView = OwnerView(id: UserModel.UserId, name: string, email: string)

  datatype FeedItem = FeedItem(referral: Referral, owner: Option<OwnerView>)

  /** getAllReferrals: every referral, whatever its owner, with its owner's
      name and email joined in. */
  function GetAllReferrals(db: ReferralTable, people: UserModel.UserTable): (feed: map<ReferralId, FeedItem>)
    reads db, people
    ensures feed.Keys == db.docs.Keys
    ensures forall id :: id in feed ==> feed[id].referral == db.docs[id]
    ensures forall id :: id in feed ==>
      (feed[id].owner.Some? <==> db.docs[id].userId in people.users)
    ensures forall id :: id in feed && feed[id].owner.Some? ==>
      var u := people.users[db.docs[id].userId];
      feed[id].owner.value == OwnerView(db.docs[id].userId, u.name, u.email)
  {
    map id | id in db.docs :: FeedItem(db.docs[id], Owner(people.users, db.docs[id].userId))
  }

  function Owner(users: map<UserModel.UserId, UserModel.User>, id: UserModel.UserId): Option<OwnerView> {
    if id in users then Some(OwnerView(id, users[id].name, users[id].email)) else None
  }

  /** The feed and the owners' own lists agree: a referral is in its owner's list
      exactly when it is in the feed. */
  lemma FeedCoversOwnLists(db: ReferralTable, people: UserModel.UserTable, owner: UserModel.UserId, id: ReferralId)
    ensures id in GetUserReferrals(db, owner) <==> id in GetAllReferrals(db, people) && GetAllReferrals(db, people)[id].referral.userId == owner
    ensures id in GetUserReferrals(db, owner) ==> GetUserReferrals(db, owner)[id] == GetAllReferrals(db, people)[id].referral
  {
  }
}
