/**
 * `/api/gym/members`: the `Members` subcollection of the owner's gym in the root `Gym`
 * collection. GET lists the records; POST adds the user holding a connection code as a record
 * keyed by that user's uid and clears the code from the user's profile. A rejected token is not
 * caught locally here, so it ends in the handler's 500 response.
 */
module GymMembersRoute {
  import opened Wrappers
  import opened Http
  import opened DocStore
  import opened BearerAuth

  function Get(ownedGyms: seq<Doc<OwnedGym>>, rosters: map<string, seq<Doc<MemberRecord>>>,
               authorization: Option<string>, verify: string -> Option<string>): (r: Response<seq<Doc<MemberRecord>>>)
    ensures r.status in {200, 401, 404, 500}
    ensures Authenticate(authorization, verify).NoBearer? ==> r == Fail(401, "Unauthorized")
    ensures Authenticate(authorization, verify).Rejected? ==> r == Fail(500, "Error fetching members")
    ensures var c := Authenticate(authorization, verify);
      c.Verified? ==>
        match OwnedBy(ownedGyms, c.uid)
        case None => r == Fail(404, "Gym not found")
        case Some(i) => r == Ok(200, Docs(rosters, ownedGyms[i].id))
  {
    match Authenticate(authorization, verify)
    case NoBearer => Fail(401, "Unauthorized")
    case Rejected => Fail(500, "Error fetching members")
    case Verified(ownerId) =>
      match OwnedBy(ownedGyms, ownerId)
      case None => Fail(404, "Gym not found")
      case Some(i) => Ok(200, Docs(rosters, ownedGyms[i].id))
  }

  /** In a valid store every listed record carries the uid it is filed under, and no uid is listed twice. */
  lemma ListingKeyedByMember(store: Store, authorization: Option<string>, verify: string -> Option<string>)
    requires store.Valid()
    ensures var r := Get(store.ownedGyms, store.rosters, authorization, verify);
      r.Ok? ==>
        && (forall k :: 0 <= k < |r.body| ==> r.body[k].data.userId == r.body[k].id)
        && (forall k, l :: 0 <= k < l < |r.body| ==> r.body[k].data.userId != r.body[l].data.userId)
  {
  }

  /**
   * The profile has the name and email the member record copies: the store refuses to write a
   * field whose value is `undefined`, and the handler then answers 500.
   */
  predicate Storable(profile: User) {
    profile.name.Some? && profile.email.Some?
  }

  /** The record POST writes for the user `uid` whose profile is `profile`. */
  function NewRecord(uid: string, profile: User, joinedAt: string): (m: MemberRecord)
    ensures m.userId == uid && m.status == "active" && m.joinedAt == joinedAt
    ensures m.name == profile.name && m.email == profile.email
  {
    MemberRecord(uid, profile.name, profile.email, joinedAt, "active")
  }

  /** Handles one POST; `joinedAt` is the handler's clock read. */
  method Post(store: Store, authorization: Option<string>, verify: string -> Option<string>,
              connectionCode: Option<string>, joinedAt: string)
    returns (response: Response<string>)
    modifies store
    ensures response.status in {200, 400, 401, 404, 500}
    ensures response.status != 200 ==> unchanged(store)
    ensures Authenticate(authorization, verify).NoBearer? ==> response == Fail(401, "Unauthorized")
    ensures Authenticate(authorization, verify).Rejected? ==> response == Fail(500, "Error adding member")
    ensures var c := Authenticate(authorization, verify);
      var users, gyms := old(store.users), old(store.ownedGyms);
      c.Verified? ==>
        if !Truthy(connectionCode) then response == Fail(400, "Connection code is required")
        else if OwnedBy(gyms, c.uid).None? then response == Fail(404, "Gym not found")
        else if !HasCode(users, connectionCode.value) then response == Fail(404, "Invalid connection code")
        else
          var gymId := gyms[OwnedBy(gyms, c.uid).value].id;
          var roster := Docs(old(store.rosters), gymId);
          && (response.status == 400 ==>
                && response == Fail(400, "User is already a member")
                && exists m :: HoldsCode(users, m, connectionCode.value) && HasId(roster, m))
          && (response.status == 500 ==>
                && response == Fail(500, "Error adding member")
                && exists m :: HoldsCode(users, m, connectionCode.value) && !HasId(roster, m) && !Storable(users[m]))
          && (response.status == 200 ==>
                && response.Ok?
                && var m := response.body;
                && HoldsCode(users, m, connectionCode.value)
                && !HasId(roster, m)
                && Storable(users[m])
                && store.rosters == old(store.rosters)[gymId := roster + [Doc(m, NewRecord(m, users[m], joinedAt))]]
                && store.users == users[m := users[m].(gymConnectionCode := None)])
          && response.status in {200, 400, 500}
    ensures store.gyms == old(store.gyms) && store.ownedGyms == old(store.ownedGyms)
    ensures store.plans == old(store.plans) && store.exercises == old(store.exercises)
    ensures old(store.Valid()) ==> store.Valid()
  {
    var caller := Authenticate(authorization, verify);
    if caller.NoBearer? {
      return Fail(401, "Unauthorized");
    }
    if caller.Rejected? {
      return Fail(500, "Error adding member");
    }
    var ownerId := caller.uid;
    if !Truthy(connectionCode) {
      return Fail(400, "Connection code is required");
    }
    var code := connectionCode.value;

    // the owner's gym
    var found := OwnedBy(store.ownedGyms, ownerId);
    if found.None? {
      return Fail(404, "Gym not found");
    }
    var gymId := store.ownedGyms[found.value].id;

    // the user holding the code: the store picks one when several do
    if !HasCode(store.users, code) {
      return Fail(404, "Invalid connection code");
    }
    var memberId :| memberId in store.users && HoldsCode(store.users, memberId, code);

    var roster := Docs(store.rosters, gymId);
    if HasId(roster, memberId) {
      return Fail(400, "User is already a member");
    }
    if !Storable(store.users[memberId]) {
      return Fail(500, "Error adding member");
    }

    ghost var valid := store.Valid();
    var record := Doc(memberId, NewRecord(memberId, store.users[memberId], joinedAt));
    store.rosters := store.rosters[gymId := roster + [record]];
    store.users := store.users[memberId := store.users[memberId].(gymConnectionCode := None)];
    if valid {
      AddFreshId(roster, record);
      assert GymLinks(store.users, store.gyms) by {
        forall uid | uid in store.users && Truthy(store.users[uid].gymId)
          ensures store.users[uid].gymId.value in store.gyms && uid in store.gyms[store.users[uid].gymId.value].members
        {
          assert Truthy(old(store.users)[uid].gymId);
        }
      }
    }
    return Ok(200, memberId);
  }

  /** A successful POST uses up the member's code: that profile no longer holds any code. */
  lemma CodeIsCleared(users: map<string, User>, m: string, code: string)
    requires m in users
    ensures !HoldsCode(users[m := users[m].(gymConnectionCode := None)], m, code)
  {
  }

  /** After a successful POST the owner's listing ends with the new member's record. */
  lemma AddedMemberIsListed(ownedGyms: seq<Doc<OwnedGym>>, rosters: map<string, seq<Doc<MemberRecord>>>,
                            authorization: Option<string>, verify: string -> Option<string>,
                            m: string, profile: User, joinedAt: string)
    requires Authenticate(authorization, verify).Verified?
    requires OwnedBy(ownedGyms, Authenticate(authorization, verify).uid).Some?
    ensures var gymId := ownedGyms[OwnedBy(ownedGyms, Authenticate(authorization, verify).uid).value].id;
      var record := Doc(m, NewRecord(m, profile, joinedAt));
      var r := Get(ownedGyms, rosters[gymId := Docs(rosters, gymId) + [record]], authorization, verify);
      && r.Ok? && |r.body| == |Docs(rosters, gymId)| + 1
      && r.body[|r.body| - 1] == record && HasId(r.body, m)
  {
    var gymId := ownedGyms[OwnedBy(ownedGyms, Authenticate(authorization, verify).uid).value].id;
    var record := Doc(m, NewRecord(m, profile, joinedAt));
    var r := Get(ownedGyms, rosters[gymId := Docs(rosters, gymId) + [record]], authorization, verify);
    assert r.body[|r.body| - 1] == record;
  }
}
