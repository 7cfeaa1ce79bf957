/**
 * `GET /api/auth/me`: the caller's profile, reduced to the fields the client's user state holds.
 * A rejected token is not caught locally here, so it ends in the handler's 500 response.
 */
module MeRoute {
  import opened Wrappers
  import opened Http
  import opened DocStore
  import opened BearerAuth
  import RegisterRoute

  /** The response's `user`. */
  datatype MeView = MeView(userId: string, name: Option<string>, email: Option<string>,
                           gymId: Option<string>, role: Option<string>)

  function Get(users: map<string, User>, authorization: Option<string>, verify: string -> Option<string>)
    : (r: Response<MeView>)
    ensures r.status in {200, 401, 404, 500}
    ensures Authenticate(authorization, verify).NoBearer? ==> r == Fail(401, "Unauthorized")
    ensures Authenticate(authorization, verify).Rejected? ==> r == Fail(500, "Error fetching user")
    ensures var c := Authenticate(authorization, verify);
      c.Verified? && c.uid !in users ==> r == Fail(404, "User profile not found")
    ensures r.Ok? <==> Authenticate(authorization, verify).Verified? && Authenticate(authorization, verify).uid in users
    ensures r.Ok? ==>
      var uid := Authenticate(authorization, verify).uid;
      && r.status == 200
      && r.body.userId == uid
      && r.body.name == users[uid].name && r.body.email == users[uid].email
      && r.body.gymId == users[uid].gymId && r.body.role == users[uid].role
  {
    match Authenticate(authorization, verify)
    case NoBearer => Fail(401, "Unauthorized")
    case Rejected => Fail(500, "Error fetching user")
    case Verified(uid) =>
      if uid !in users then Fail(404, "User profile not found")
      else
        var u := users[uid];
        Ok(200, MeView(uid, u.name, u.email, u.gymId, u.role))
  }

  /** The view depends on the four exposed fields only: profiles that agree on them give the same response. */
  lemma ExposesOnlyFourFields(users: map<string, User>, uid: string, other: User,
                              authorization: Option<string>, verify: string -> Option<string>)
    requires uid in users && Authenticate(authorization, verify) == Verified(uid)
    requires other.name == users[uid].name && other.email == users[uid].email
    requires other.gymId == users[uid].gymId && other.role == users[uid].role
    ensures Get(users[uid := other], authorization, verify) == Get(users, authorization, verify)
  {
  }

  /** Right after registering, the caller's view has the registered name and email and no gym or role. */
  lemma MeAfterRegister(users: map<string, User>, authorization: Option<string>, verify: string -> Option<string>,
                        name: Option<string>, email: Option<string>, createdAt: string, updatedAt: string)
    requires Authenticate(authorization, verify).Verified?
    ensures var uid := Authenticate(authorization, verify).uid;
      var after := users[uid := RegisterRoute.NewProfile(uid, name, email, createdAt, updatedAt)];
      Get(after, authorization, verify) == Ok(200, MeView(uid, name, email, None, None))
  {
  }
}
