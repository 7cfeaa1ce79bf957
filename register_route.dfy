/**
 * `POST /api/auth/register`: creates the caller's `App_user` profile, keyed by the verified uid,
 * unless one already exists. A rejected token is not caught locally here, so it ends in the
 * handler's 500 response.
 */
module RegisterRoute {
  import opened Wrappers
  import opened Http
  import opened DocStore
  import opened BearerAuth

  /** The profile POST writes: no gym, no role and no connection code yet. */
  function NewProfile(uid: string, name: Option<string>, email: Option<string>,
                      createdAt: string, updatedAt: string): (u: User)
    ensures u.userId == Some(uid) && u.name == name && u.email == email
    ensures u.status == Some("LOGGED_IN")
    ensures u.gymId.None? && u.role.None? && u.gymConnectionCode.None?
  {
    User(Some(uid), name, email, None, None, None, Some("LOGGED_IN"), Some(createdAt), Some(updatedAt))
  }

  /** Handles one POST; `name` and `email` are the body's fields, the timestamps the two clock reads. */
  method Post(store: Store, authorization: Option<string>, verify: string -> Option<string>,
              name: Option<string>, email: Option<string>, createdAt: string, updatedAt: string)
    returns (response: Response<User>)
    modifies store
    ensures response.status in {200, 400, 401, 500}
    ensures response.status != 200 ==> unchanged(store)
    ensures Authenticate(authorization, verify).NoBearer? ==> response == Fail(401, "Unauthorized")
    ensures Authenticate(authorization, verify).Rejected? ==> response == Fail(500, "Error registering user")
    ensures var c := Authenticate(authorization, verify);
      c.Verified? ==>
        if c.uid in old(store.users) then response == Fail(400, "User profile already exists")
        else if name.None? || email.None? then response == Fail(500, "Error registering user")
        else
          var profile := NewProfile(c.uid, name, email, createdAt, updatedAt);
          && response == Ok(200, profile)
          && store.users == old(store.users)[c.uid := profile]
    ensures response.Ok? ==> store.users[Authenticate(authorization, verify).uid] == response.body
    ensures forall uid :: uid in old(store.users) ==> uid in store.users && store.users[uid] == old(store.users)[uid]
    ensures store.gyms == old(store.gyms) && store.plans == old(store.plans)
    ensures store.exercises == old(store.exercises)
    ensures store.ownedGyms == old(store.ownedGyms) && store.rosters == old(store.rosters)
    ensures old(store.Valid()) ==> store.Valid()
  {
    var caller := Authenticate(authorization, verify);
    if caller.NoBearer? {
      return Fail(401, "Unauthorized");
    }
    if caller.Rejected? {
      return Fail(500, "Error registering user");
    }
    var uid := caller.uid;
    if uid in store.users {
      return Fail(400, "User profile already exists");
    }
    if name.None? || email.None? {
      // the store refuses to write a field whose value is `undefined`
      return Fail(500, "Error registering user");
    }
    var profile := NewProfile(uid, name, email, createdAt, updatedAt);
    store.users := store.users[uid := profile];
    return Ok(200, profile);
  }
}
