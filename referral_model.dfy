/** The Referral document (backend/src/models/Referral.ts): owner, three
    required strings, a status restricted to an enum with a default, and the
    schema's timestamps. The collection is an in-memory table keyed by id. */
module ReferralModel {
  import opened Text
  import UserModel

  type ReferralId = nat

  datatype Status = Pending | Accepted | Closed

  /** The enum's spelling of each status. */
  function StatusName(s: Status): string {
    match s
    case Pending => "Pending"
    case Accepted => "Accepted"
    case Closed => "Closed"
  }

  /** The enum validator: a string is a status only if it is one of the three names. */
  function ParseStatus(s: string): (r: Option<Status>)
    ensures r.Some? ==> StatusName(r.value) == s
    ensures r.None? <==> forall st: Status :: StatusName(st) != s
  {
    if s == "Pending" then Some(Pending)
    else if s == "Accepted" then Some(Accepted)
    else if s == "Closed" then Some(Closed)
    else None
  }

  /** Every status passes the enum validator under its own name, and no two statuses share a name. */
  lemma ParseStatusName(s: Status)
    ensures ParseStatus(StatusName(s)) == Some(s)
    ensures forall t: Status :: StatusName(t) == StatusName(s) ==> t == s
  {
  }

  /** The schema default. */
  const DefaultStatus: Status := Pending

  /** A stored referral; `createdAt` and `updatedAt` are the `timestamps: true` fields. */
  datatype Referral = Referral(
    userId: UserModel.UserId,
    title: string,
    company: string,
    description: string,
    status: Status,
    createdAt: nat,
    updatedAt: nat)

  /** The required validators: the owner is a typed id, the strings are non-empty. */
  predicate HasRequiredFields(r: Referral) {
    r.title != "" && r.company != "" && r.description != ""
  }

  /** The referral collection. */
  class ReferralTable {
    var docs: map<ReferralId, Referral>
    var nextId: ReferralId

    ghost predicate Valid()
      reads this
    {
      && (forall id :: id in docs ==> id < nextId)
      && (forall id :: id in docs ==> HasRequiredFields(docs[id]))
    }

    constructor ()
      ensures Valid() && docs == map[]
    {
      docs := map[];
      nextId := 0;
    }

    /** `new Referral(r).save()` under a fresh id. */
    method Insert(r: Referral) returns (id: ReferralId)
      requires Valid() && HasRequiredFields(r)
      modifies this
      ensures Valid()
      ensures id !in old(docs) && docs == old(docs)[id := r]
    {
      id := nextId;
      docs := docs[id := r];
      nextId := nextId + 1;
    }

    /** `referral.save()` of an existing document. */
    method Save(id: ReferralId, r: Referral)
      requires Valid() && id in docs && HasRequiredFields(r)
      modifies this
      ensures Valid() && docs == old(docs)[id := r]
    {
      docs := docs[id := r];
    }

    /** `referral.deleteOne()`. */
    method Delete(id: ReferralId)
      requires Valid()
      modifies this
      ensures Valid() && docs == old(docs) - {id}
    {
      docs := docs - {id};
    }
  }
}
