/**
 * `/api/gym`: the owner's gym in the root `Gym` collection, found by `ownerId`. GET returns it
 * with the records of its `Members` subcollection; POST creates one for a caller who owns none.
 * A rejected token is not caught locally here, so it ends in the handler's 500 response.
 */
module GymRoute {
  import opened Wrappers
  import opened Http
  import opened DocStore
  import opened BearerAuth

  /** The GET response's `gym`: the document id, the document's fields and the member records. */
  datatype GymView = GymView(id: string, gym: OwnedGym, membersWithDetails: seq<MemberRecord>)

  /** The body POST reads: `{ name, logo, address, workingDays, contactNumber }`. */
  datatype GymBody = GymBody(
    name: Option<string>,
    logo: Option<string>,
    address: Option<string>,
    workingDays: Option<seq<string>>,
    contactNumber: Option<string>)

  /** The data of each document, in order (`docs.map(doc => doc.data())`). */
  function Records(docs: seq<Doc<MemberRecord>>): (r: seq<MemberRecord>)
    ensures |r| == |docs|
    ensures forall i :: 0 <= i < |docs| ==> r[i] == docs[i].data
  {
    seq(|docs|, i requires 0 <= i < |docs| => docs[i].data)
  }

  function Get(ownedGyms: seq<Doc<OwnedGym>>, rosters: map<string, seq<Doc<MemberRecord>>>,
               authorization: Option<string>, verify: string -> Option<string>): (r: Response<GymView>)
    ensures r.status in {200, 401, 404, 500}
    ensures Authenticate(authorization, verify).NoBearer? ==> r == Fail(401, "Unauthorized")
    ensures Authenticate(authorization, verify).Rejected? ==> r == Fail(500, "Error fetching gym")
    ensures var c := Authenticate(authorization, verify);
      c.Verified? && (forall i :: 0 <= i < |ownedGyms| ==> ownedGyms[i].data.ownerId != c.uid) ==>
        r == Fail(404, "Gym not found")
    ensures r.Ok? ==>
      && r.status == 200
      && Authenticate(authorization, verify).Verified?
      && r.body.gym.ownerId == Authenticate(authorization, verify).uid
      && (exists i :: 0 <= i < |ownedGyms| && ownedGyms[i] == Doc(r.body.id, r.body.gym))
      && r.body.membersWithDetails == Records(Docs(rosters, r.body.id))
  {
    match Authenticate(authorization, verify)
    case NoBearer => Fail(401, "Unauthorized")
    case Rejected => Fail(500, "Error fetching gym")
    case Verified(ownerId) =>
      match OwnedBy(ownedGyms, ownerId)
      case None => Fail(404, "Gym not found")
      case Some(i) =>
        var gymDoc := ownedGyms[i];
        Ok(200, GymView(gymDoc.id, gymDoc.data, Records(Docs(rosters, gymDoc.id))))
  }

  /** With one gym per owner, a verified owner who has a gym always gets exactly that gym. */
  lemma GetFindsOwnGym(ownedGyms: seq<Doc<OwnedGym>>, rosters: map<string, seq<Doc<MemberRecord>>>,
                       authorization: Option<string>, verify: string -> Option<string>, i: nat)
    requires OneGymPerOwner(ownedGyms)
    requires i < |ownedGyms| && Authenticate(authorization, verify) == Verified(ownedGyms[i].data.ownerId)
    ensures Get(ownedGyms, rosters, authorization, verify)
         == Ok(200, GymView(ownedGyms[i].id, ownedGyms[i].data, Records(Docs(rosters, ownedGyms[i].id))))
  {
    OwnedByUnique(ownedGyms, ownedGyms[i].data.ownerId);
  }

  /**
   * Every field the gym document copies from the body was sent: the store refuses to write a
   * field whose value is `undefined`, and the handler then answers 500.
   */
  predicate Storable(body: GymBody) {
    body.name.Some? && body.logo.Some? && body.address.Some? && body.workingDays.Some? && body.contactNumber.Some?
  }

  /** The gym document POST writes: the submitted fields as given, with the caller as owner. */
  function NewGym(body: GymBody, owner: string, createdAt: string, updatedAt: string): (g: OwnedGym)
    ensures g.ownerId == owner
    ensures g.name == body.name && g.logo == body.logo && g.address == body.address
    ensures g.workingDays == body.workingDays && g.contactNumber == body.contactNumber
  {
    OwnedGym(body.name, body.logo, body.address, body.workingDays, body.contactNumber, owner, createdAt, updatedAt)
  }

  /**
   * Handles one POST. `newGymId` is the id the store generates for the added document; the two
   * timestamps are the handler's two clock reads.
   */
  method Post(store: Store, authorization: Option<string>, verify: string -> Option<string>, body: GymBody,
              newGymId: string, createdAt: string, updatedAt: string)
    returns (response: Response<Doc<OwnedGym>>)
    requires newGymId != "" && !HasId(store.ownedGyms, newGymId)
    modifies store
    ensures response.status in {201, 400, 401, 500}
    ensures response.status != 201 ==> unchanged(store)
    ensures Authenticate(authorization, verify).NoBearer? ==> response == Fail(401, "Unauthorized")
    ensures Authenticate(authorization, verify).Rejected? ==> response == Fail(500, "Error creating gym")
    ensures var c := Authenticate(authorization, verify);
      c.Verified? ==>
        if OwnedBy(old(store.ownedGyms), c.uid).Some? then response == Fail(400, "User already owns a gym")
        else if !Storable(body) then response == Fail(500, "Error creating gym")
        else
          var gym := NewGym(body, c.uid, createdAt, updatedAt);
          && response == Ok(201, Doc(newGymId, gym))
          && store.ownedGyms == old(store.ownedGyms) + [Doc(newGymId, gym)]
    ensures store.users == old(store.users) && store.gyms == old(store.gyms)
    ensures store.plans == old(store.plans) && store.exercises == old(store.exercises)
    ensures store.rosters == old(store.rosters)
    ensures old(store.Valid()) ==> store.Valid()
  {
    var caller := Authenticate(authorization, verify);
    if caller.NoBearer? {
      return Fail(401, "Unauthorized");
    }
    if caller.Rejected? {
      return Fail(500, "Error creating gym");
    }
    var ownerId := caller.uid;
    if OwnedBy(store.ownedGyms, ownerId).Some? {
      return Fail(400, "User already owns a gym");
    }
    if !Storable(body) {
      return Fail(500, "Error creating gym");
    }
    var gym := NewGym(body, ownerId, createdAt, updatedAt);
    ghost var before := store.ownedGyms;
    store.ownedGyms := store.ownedGyms + [Doc(newGymId, gym)];
    if OneGymPerOwner(before) {
      AddOwnedGym(before, Doc(newGymId, gym));
    }
    AddFreshId(before, Doc(newGymId, gym));
    return Ok(201, Doc(newGymId, gym));
  }

  /** After a successful POST, GET by the same caller finds the gym just created, with no members yet. */
  lemma CreatedGymIsFound(ownedGyms: seq<Doc<OwnedGym>>, rosters: map<string, seq<Doc<MemberRecord>>>,
                          authorization: Option<string>, verify: string -> Option<string>, body: GymBody,
                          newGymId: string, createdAt: string, updatedAt: string)
    requires Authenticate(authorization, verify).Verified?
    requires OwnedBy(ownedGyms, Authenticate(authorization, verify).uid).None?
    requires newGymId !in rosters
    ensures var gym := NewGym(body, Authenticate(authorization, verify).uid, createdAt, updatedAt);
      Get(ownedGyms + [Doc(newGymId, gym)], rosters, authorization, verify) == Ok(200, GymView(newGymId, gym, []))
  {
    var uid := Authenticate(authorization, verify).uid;
    var gym := NewGym(body, uid, createdAt, updatedAt);
    OwnedByAppended(ownedGyms, Doc(newGymId, gym));
  }
}
