/**
 * `/api/gyms`: GET returns the caller's gym with the details of its members; POST creates a gym
 * for a caller who has none and makes the caller its owner.
 */
module GymsRoute {
  import opened Wrappers
  import opened Http
  import opened DocStore
  import opened BearerAuth
  import Lists

  /** One entry of `membersWithDetails`. */
  datatype MemberDetail = MemberDetail(userId: string, name: string, email: string, joinedAt: Option<string>)

  /** The GET response's `gym`: the document id, the document's fields, and the member details. */
  datatype GymView = GymView(id: string, gym: Gym, membersWithDetails: seq<MemberDetail>)

  /** The body POST reads: `{ name, logo, address, workingDays, contactNumber }`. */
  datatype GymBody = GymBody(
    name: Option<string>,
    logo: Option<string>,
    address: Option<string>,
    workingDays: Option<seq<string>>,
    contactNumber: Option<string>)

  /** The details of one member whose profile exists, with `'Unknown'`, `'N/A'` and `null` defaults. */
  function DetailOf(uid: string, profile: User): (d: MemberDetail)
    ensures d.userId == uid
    ensures d.name == (if Truthy(profile.name) then profile.name.value else "Unknown")
    ensures d.email == (if Truthy(profile.email) then profile.email.value else "N/A")
    ensures d.joinedAt.Some? <==> Truthy(profile.createdAt)
    ensures d.joinedAt.Some? ==> d.joinedAt == profile.createdAt
  {
    MemberDetail(uid, OrElse(profile.name, "Unknown"), OrElse(profile.email, "N/A"),
                 if Truthy(profile.createdAt) then profile.createdAt else None)
  }

  /** The member ids that have a profile, in `members` order. */
  function Profiled(members: seq<string>, users: map<string, User>): (r: seq<string>)
    ensures |r| <= |members|
    ensures forall x :: x in r <==> x in members && x in users
  {
    if members == [] then []
    else (if members[0] in users then [members[0]] else []) + Profiled(members[1..], users)
  }

  /** `membersWithDetails`: the members whose profile exists, each with its details; others dropped. */
  function Details(members: seq<string>, users: map<string, User>): (r: seq<MemberDetail>)
    ensures |r| <= |members|
    ensures forall d :: d in r ==> d.userId in members && d.userId in users
  {
    if members == [] then []
    else (if members[0] in users then [DetailOf(members[0], users[members[0]])] else [])
         + Details(members[1..], users)
  }

  /** Entry `i` of the details belongs to the `i`-th member that has a profile. */
  lemma {:induction false} DetailsFollowMembers(members: seq<string>, users: map<string, User>)
    ensures |Details(members, users)| == |Profiled(members, users)|
    ensures forall i :: 0 <= i < |Details(members, users)| ==>
      Profiled(members, users)[i] in users &&
      Details(members, users)[i] == DetailOf(Profiled(members, users)[i], users[Profiled(members, users)[i]])
  {
    if members != [] {
      DetailsFollowMembers(members[1..], users);
    }
  }

  /** When every member has a profile, there is one entry per member, in `members` order. */
  lemma {:induction false} DetailsComplete(members: seq<string>, users: map<string, User>)
    requires forall x :: x in members ==> x in users
    ensures |Details(members, users)| == |members|
    ensures forall i :: 0 <= i < |members| ==> Details(members, users)[i].userId == members[i]
  {
    if members != [] {
      DetailsComplete(members[1..], users);
    }
  }

  /** Distinct members give distinct entries. */
  lemma {:induction false} DetailsDistinct(members: seq<string>, users: map<string, User>)
    requires Lists.NoDup(members)
    ensures forall i, j :: 0 <= i < j < |Details(members, users)| ==>
      Details(members, users)[i].userId != Details(members, users)[j].userId
  {
    if members != [] {
      DetailsDistinct(members[1..], users);
      assert members[0] !in members[1..];
    }
  }

  function Get(users: map<string, User>, gyms: map<string, Gym>,
               authorization: Option<string>, verify: string -> Option<string>): (r: Response<GymView>)
    ensures r.status in {200, 401, 404}
    ensures Authenticate(authorization, verify).NoBearer? ==> r == Fail(401, "Unauthorized: Missing or invalid token")
    ensures Authenticate(authorization, verify).Rejected? ==> r == Fail(401, "Unauthorized: Invalid token")
    ensures var c := Authenticate(authorization, verify);
      c.Verified? ==>
        && (c.uid !in users ==> r == Fail(404, "User not found"))
        && (c.uid in users && !Truthy(users[c.uid].gymId) ==> r == Fail(404, "Gym not found for this user"))
        && (GymOf(users, c.uid).Some? && GymOf(users, c.uid).value !in gyms ==> r == Fail(404, "Gym document not found"))
    ensures r.Ok? <==> (var c := Authenticate(authorization, verify);
                        c.Verified? && GymOf(users, c.uid).Some? && GymOf(users, c.uid).value in gyms)
    ensures r.Ok? ==> && r.status == 200
                      && Some(r.body.id) == GymOf(users, Authenticate(authorization, verify).uid)
                      && r.body.id in gyms && r.body.gym == gyms[r.body.id]
                      && r.body.membersWithDetails == Details(gyms[r.body.id].members, users)
  {
    match Authenticate(authorization, verify)
    case NoBearer => Fail(401, "Unauthorized: Missing or invalid token")
    case Rejected => Fail(401, "Unauthorized: Invalid token")
    case Verified(uid) =>
      if uid !in users then Fail(404, "User not found")
      else if !Truthy(users[uid].gymId) then Fail(404, "Gym not found for this user")
      else
        var gymId := users[uid].gymId.value;
        if gymId !in gyms then Fail(404, "Gym document not found")
        else Ok(200, GymView(gymId, gyms[gymId], Details(gyms[gymId].members, users)))
  }

  /** POST's refusal for a caller whose profile already names a gym. */
  const AlreadyHasGymReason: string := "already owns or belongs to a gym"
  const AlreadyHasGym: string := "User " + AlreadyHasGymReason

  /**
   * The fields the gym document takes from the body as they are were all sent: the store
   * refuses to write a field whose value is `undefined`, and the handler then answers 500.
   */
  predicate Storable(body: GymBody) {
    body.name.Some? && body.address.Some? && body.workingDays.Some? && body.contactNumber.Some?
  }

  /** The gym document POST writes for `owner`. */
  function NewGym(body: GymBody, owner: string, createdAt: string, updatedAt: string): (g: Gym)
    ensures g.ownerId == owner && g.members == [owner]
    ensures g.logo == OrElse(body.logo, "")
    ensures g.name == body.name && g.address == body.address && g.contactNumber == body.contactNumber
    ensures g.workingDays == body.workingDays
  {
    Gym(body.name, OrElse(body.logo, ""), body.address, body.workingDays, body.contactNumber,
        owner, [owner], createdAt, updatedAt)
  }

  /**
   * Handles one POST. `newGymId` is the id the store generates for the new document; the three
   * timestamps are the handler's three clock reads.
   */
  method Post(store: Store, authorization: Option<string>, verify: string -> Option<string>, body: GymBody,
              newGymId: string, createdAt: string, updatedAt: string, userUpdatedAt: string)
    returns (response: Response<Doc<Gym>>)
    requires newGymId != "" && newGymId !in store.gyms
    modifies store
    ensures response.status in {201, 400, 401, 404, 500}
    ensures response.status != 201 ==> unchanged(store)
    ensures Authenticate(authorization, verify).NoBearer? ==>
      response == Fail(401, "Unauthorized: Missing or invalid token")
    ensures Authenticate(authorization, verify).Rejected? ==>
      response == Fail(401, "Unauthorized: Invalid token")
    ensures var c := Authenticate(authorization, verify);
      var users := old(store.users);
      c.Verified? ==>
        if c.uid !in users then response == Fail(404, "User not found")
        else if Truthy(users[c.uid].gymId) then response == Fail(400, AlreadyHasGym)
        else if !Storable(body) then response == Fail(500, "Error creating gym")
        else
          var gym := NewGym(body, c.uid, createdAt, updatedAt);
          && response == Ok(201, Doc(newGymId, gym))
          && store.gyms == old(store.gyms)[newGymId := gym]
          && store.users == users[c.uid := users[c.uid].(gymId := Some(newGymId), role := Some("gym_owner"),
                                                          updatedAt := Some(userUpdatedAt))]
    ensures store.plans == old(store.plans) && store.exercises == old(store.exercises)
    ensures store.ownedGyms == old(store.ownedGyms) && store.rosters == old(store.rosters)
    ensures old(store.Valid()) ==> store.Valid()
  {
    var caller := Authenticate(authorization, verify);
    if caller.NoBearer? {
      return Fail(401, "Unauthorized: Missing or invalid token");
    }
    if caller.Rejected? {
      return Fail(401, "Unauthorized: Invalid token");
    }
    var userId := caller.uid;
    if userId !in store.users {
      return Fail(404, "User not found");
    }
    var user := store.users[userId];
    if Truthy(user.gymId) {
      return Fail(400, AlreadyHasGym);
    }
    if !Storable(body) {
      return Fail(500, "Error creating gym");
    }
    var gym := NewGym(body, userId, createdAt, updatedAt);
    ghost var users0, gyms0 := store.users, store.gyms;
    store.gyms := store.gyms[newGymId := gym];
    store.users := store.users[userId := user.(gymId := Some(newGymId), role := Some("gym_owner"),
                                                updatedAt := Some(userUpdatedAt))];
    CreateKeepsInvariants(users0, gyms0, userId, newGymId, gym, userUpdatedAt);
    return Ok(201, Doc(newGymId, gym));
  }

  /** Creating a gym whose only member is its owner keeps members distinct and gym links intact. */
  lemma CreateKeepsInvariants(users: map<string, User>, gyms: map<string, Gym>, uid: string, gymId: string,
                              gym: Gym, userUpdatedAt: string)
    requires uid in users && gymId != "" && gymId !in gyms && gym.members == [uid]
    ensures var gyms' := gyms[gymId := gym];
      var users' := users[uid := users[uid].(gymId := Some(gymId), role := Some("gym_owner"), updatedAt := Some(userUpdatedAt))];
      && (MembersDistinct(gyms) ==> MembersDistinct(gyms'))
      && (GymLinks(users, gyms) ==> GymLinks(users', gyms'))
  {
    var gyms' := gyms[gymId := gym];
    var users' := users[uid := users[uid].(gymId := Some(gymId), role := Some("gym_owner"), updatedAt := Some(userUpdatedAt))];
    if GymLinks(users, gyms) {
      forall u | u in users' && Truthy(users'[u].gymId)
        ensures users'[u].gymId.value in gyms' && u in gyms'[users'[u].gymId.value].members
      {
        if u != uid {
          assert users[u].gymId.value in gyms;
        }
      }
    }
  }
}
