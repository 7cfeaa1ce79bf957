/**
 * `POST /api/gyms/members`: a gym owner adds a member by the member's connection code. The
 * member is appended to the gym's `members` array, and the member's profile gets the gym's id
 * while losing the code.
 */
module GymsMembersRoute {
  import opened Wrappers
  import opened Http
  import opened DocStore
  import opened BearerAuth
  import Lists

  /** The members array after admitting `member`: the old one with `member` added once, last. */
  function Admit(members: seq<string>, member: string): (r: seq<string>)
    requires member !in members
    ensures |r| == |members| + 1 && r[..|members|] == members && r[|members|] == member
    ensures Lists.NoDup(members) ==> Lists.NoDup(r)
  {
    members + [member]
  }

  /**
   * Handles one request. `verify` stands for token verification, `connectionCode` for the
   * body's field, and the two timestamps for the two clock reads of the handler.
   */
  method Post(store: Store, authorization: Option<string>, verify: string -> Option<string>,
              connectionCode: Option<string>, gymUpdatedAt: string, memberUpdatedAt: string)
    returns (response: Response<string>)
    modifies store
    ensures response.status in {200, 400, 401, 404}
    ensures response.status != 200 ==> unchanged(store)
    ensures Authenticate(authorization, verify).NoBearer? ==>
      response == Fail(401, "Unauthorized: Missing or invalid token")
    ensures Authenticate(authorization, verify).Rejected? ==>
      response == Fail(401, "Unauthorized: Invalid token")
    ensures var caller := Authenticate(authorization, verify);
      var users, gyms := old(store.users), old(store.gyms);
      caller.Verified? ==>
        if !Truthy(connectionCode) then response == Fail(400, "Connection code is required")
        else if caller.uid !in users then response == Fail(404, "User not found")
        else if !Truthy(users[caller.uid].gymId) then response == Fail(404, "You do not own a gym")
        else
          var gymId := users[caller.uid].gymId.value;
          var code := connectionCode.value;
          if gymId !in gyms then response == Fail(404, "Gym not found")
          else if !HasCode(users, code) then response == Fail(404, "Invalid connection code")
          else
            var members := gyms[gymId].members;
            && (response.status == 400 ==>
                  && response == Fail(400, "User is already a member of this gym")
                  && exists m :: HoldsCode(users, m, code) && m in members)
            && (response.status == 200 ==>
                  && response.Ok?
                  && var m := response.body;
                  && HoldsCode(users, m, code)
                  && m !in members
                  && store.gyms == gyms[gymId := gyms[gymId].(members := Admit(members, m), updatedAt := gymUpdatedAt)]
                  && store.users == users[m := users[m].(gymConnectionCode := None, gymId := Some(gymId),
                                                          updatedAt := Some(memberUpdatedAt))])
            && (response.status == 200 || response.status == 400)
    ensures store.plans == old(store.plans) && store.exercises == old(store.exercises)
    ensures store.ownedGyms == old(store.ownedGyms) && store.rosters == old(store.rosters)
    ensures old(store.Valid()) ==> store.Valid()
  {
    var caller := Authenticate(authorization, verify);
    if caller.NoBearer? {
      return Fail(401, "Unauthorized: Missing or invalid token");
    }
    if caller.Rejected? {
      return Fail(401, "Unauthorized: Invalid token");
    }
    var ownerId := caller.uid;
    if !Truthy(connectionCode) {
      return Fail(400, "Connection code is required");
    }
    var code := connectionCode.value;

    // the owner's gym
    if ownerId !in store.users {
      return Fail(404, "User not found");
    }
    var owner := store.users[ownerId];
    if !Truthy(owner.gymId) {
      return Fail(404, "You do not own a gym");
    }
    var gymId := owner.gymId.value;
    if gymId !in store.gyms {
      return Fail(404, "Gym not found");
    }
    var gym := store.gyms[gymId];

    // the user holding the code: the store picks one when several do
    if !HasCode(store.users, code) {
      return Fail(404, "Invalid connection code");
    }
    var memberId :| memberId in store.users && HoldsCode(store.users, memberId, code);

    var currentMembers := gym.members;
    if memberId in currentMembers {
      return Fail(400, "User is already a member of this gym");
    }

    ghost var users0, gyms0 := store.users, store.gyms;
    store.gyms := store.gyms[gymId := gym.(members := Admit(currentMembers, memberId), updatedAt := gymUpdatedAt)];
    var member := store.users[memberId];
    store.users := store.users[memberId := member.(gymConnectionCode := None, gymId := Some(gymId),
                                                    updatedAt := Some(memberUpdatedAt))];
    AdmitKeepsInvariants(users0, gyms0, gymId, memberId, gymUpdatedAt, memberUpdatedAt);
    return Ok(200, memberId);
  }

  /** Admitting a new member keeps every gym's members distinct and every profile's gym link. */
  lemma AdmitKeepsInvariants(users: map<string, User>, gyms: map<string, Gym>, gymId: string, m: string,
                             gymUpdatedAt: string, memberUpdatedAt: string)
    requires gymId in gyms && gymId != "" && m in users && m !in gyms[gymId].members
    ensures var gyms' := gyms[gymId := gyms[gymId].(members := Admit(gyms[gymId].members, m), updatedAt := gymUpdatedAt)];
      var users' := users[m := users[m].(gymConnectionCode := None, gymId := Some(gymId), updatedAt := Some(memberUpdatedAt))];
      && (MembersDistinct(gyms) ==> MembersDistinct(gyms'))
      && (GymLinks(users, gyms) ==> GymLinks(users', gyms'))
  {
    var gyms' := gyms[gymId := gyms[gymId].(members := Admit(gyms[gymId].members, m), updatedAt := gymUpdatedAt)];
    var users' := users[m := users[m].(gymConnectionCode := None, gymId := Some(gymId), updatedAt := Some(memberUpdatedAt))];
    if GymLinks(users, gyms) {
      forall uid | uid in users' && Truthy(users'[uid].gymId)
        ensures users'[uid].gymId.value in gyms' && uid in gyms'[users'[uid].gymId.value].members
      {
        if uid != m {
          var g := users[uid].gymId.value;
          assert g in gyms && uid in gyms[g].members;
          assert uid in gyms'[g].members;
        }
      }
    }
  }
}
