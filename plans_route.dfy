/**
 * `/api/plans`: the membership plans of the caller's gym, under
 * `App_user/gyms/gyms/{gymId}/plans`. POST validates the body and adds a plan; GET lists them.
 */
module PlansRoute {
  import opened Wrappers
  import opened Http
  import opened DocStore
  import opened BearerAuth
  import Numbers

  /** The body POST reads: `{ name, price, duration, description }`, with `price` as sent text. */
  datatype PlanBody = PlanBody(
    name: Option<string>,
    price: Option<string>,
    duration: Option<string>,
    description: Option<string>)

  /** `!name || !price || !duration`: a required field is missing or empty. */
  predicate MissingRequired(body: PlanBody) {
    !Truthy(body.name) || !Truthy(body.price) || !Truthy(body.duration)
  }

  /** The plan document POST writes for a complete body: `Number(price)`, and `''` for no description. */
  function NewPlan(body: PlanBody, gymId: string, createdAt: string, updatedAt: string): (p: Plan)
    requires !MissingRequired(body)
    ensures p.name == body.name.value && p.duration == body.duration.value && p.gymId == gymId
    ensures p.price == Numbers.ToNumber(body.price.value)
    ensures Truthy(body.description) ==> p.description == body.description.value
    ensures !Truthy(body.description) ==> p.description == ""
  {
    Plan(body.name.value, Numbers.ToNumber(body.price.value), body.duration.value,
         OrElse(body.description, ""), gymId, createdAt, updatedAt)
  }

  /** A price written as a decimal numeral is stored as that number. */
  lemma PriceRoundTrip(body: PlanBody, n: nat, gymId: string, createdAt: string, updatedAt: string)
    requires !MissingRequired(body) && body.price == Some(Numbers.Show(n))
    ensures NewPlan(body, gymId, createdAt, updatedAt).price == Some(n)
  {
    Numbers.ShowRoundTrip(n);
  }

  /**
   * Handles one POST. `newPlanId` is the id the store generates for the added document; the two
   * timestamps are the handler's two clock reads.
   */
  method Post(store: Store, authorization: Option<string>, verify: string -> Option<string>, body: PlanBody,
              newPlanId: string, createdAt: string, updatedAt: string)
    returns (response: Response<Doc<Plan>>)
    requires forall g :: g in store.plans ==> !HasId(store.plans[g], newPlanId)
    modifies store
    ensures response.status in {201, 400, 401, 404}
    ensures response.status != 201 ==> unchanged(store)
    ensures Authenticate(authorization, verify).NoBearer? ==>
      response == Fail(401, "Unauthorized: Missing or invalid token")
    ensures Authenticate(authorization, verify).Rejected? ==>
      response == Fail(401, "Unauthorized: Invalid token")
    ensures var c := Authenticate(authorization, verify);
      c.Verified? ==>
        match GymOf(old(store.users), c.uid)
        case None => response == Fail(404, "Gym not found for this user")
        case Some(gymId) =>
          if MissingRequired(body) then response == Fail(400, "Missing required fields")
          else
            var plan := NewPlan(body, gymId, createdAt, updatedAt);
            && response == Ok(201, Doc(newPlanId, plan))
            && store.plans == old(store.plans)[gymId := Docs(old(store.plans), gymId) + [Doc(newPlanId, plan)]]
    ensures store.users == old(store.users) && store.gyms == old(store.gyms)
    ensures store.exercises == old(store.exercises)
    ensures store.ownedGyms == old(store.ownedGyms) && store.rosters == old(store.rosters)
    ensures old(store.Valid()) ==> store.Valid()
  {
    var caller := Authenticate(authorization, verify);
    if caller.NoBearer? {
      return Fail(401, "Unauthorized: Missing or invalid token");
    }
    if caller.Rejected? {
      return Fail(401, "Unauthorized: Invalid token");
    }
    var gym := GymOf(store.users, caller.uid);
    if gym.None? {
      return Fail(404, "Gym not found for this user");
    }
    var gymId := gym.value;
    if MissingRequired(body) {
      return Fail(400, "Missing required fields");
    }
    var plan := NewPlan(body, gymId, createdAt, updatedAt);
    var listed := Docs(store.plans, gymId);
    store.plans := store.plans[gymId := listed + [Doc(newPlanId, plan)]];
    AddFreshId(listed, Doc(newPlanId, plan));
    return Ok(201, Doc(newPlanId, plan));
  }

  function Get(users: map<string, User>, plans: map<string, seq<Doc<Plan>>>,
               authorization: Option<string>, verify: string -> Option<string>): (r: Response<seq<Doc<Plan>>>)
    ensures r.status in {200, 401, 404}
    ensures Authenticate(authorization, verify).NoBearer? ==> r == Fail(401, "Unauthorized: Missing or invalid token")
    ensures Authenticate(authorization, verify).Rejected? ==> r == Fail(401, "Unauthorized: Invalid token")
    ensures var c := Authenticate(authorization, verify);
      c.Verified? ==>
        match GymOf(users, c.uid)
        case None => r == Fail(404, "Gym not found for this user")
        case Some(gymId) => r == Ok(200, Docs(plans, gymId))
  {
    match Authenticate(authorization, verify)
    case NoBearer => Fail(401, "Unauthorized: Missing or invalid token")
    case Rejected => Fail(401, "Unauthorized: Invalid token")
    case Verified(uid) =>
      match GymOf(users, uid)
      case None => Fail(404, "Gym not found for this user")
      case Some(gymId) => Ok(200, Docs(plans, gymId))
  }

  /** After a successful POST, GET by the same caller lists the old plans followed by the new one. */
  lemma CreatedPlanIsListed(users: map<string, User>, plans: map<string, seq<Doc<Plan>>>,
                            authorization: Option<string>, verify: string -> Option<string>, body: PlanBody,
                            newPlanId: string, createdAt: string, updatedAt: string)
    requires Authenticate(authorization, verify).Verified?
    requires GymOf(users, Authenticate(authorization, verify).uid).Some? && !MissingRequired(body)
    ensures var gymId := GymOf(users, Authenticate(authorization, verify).uid).value;
      var plan := NewPlan(body, gymId, createdAt, updatedAt);
      var after := plans[gymId := Docs(plans, gymId) + [Doc(newPlanId, plan)]];
      && Get(users, after, authorization, verify) == Ok(200, Docs(plans, gymId) + [Doc(newPlanId, plan)])
      && plan.gymId == gymId
  {
  }

  /** In a store where every plan sits under its own gym, GET lists only plans of the caller's gym. */
  lemma ListedPlansBelongToGym(users: map<string, User>, plans: map<string, seq<Doc<Plan>>>,
                               authorization: Option<string>, verify: string -> Option<string>)
    requires PlansFiled(plans)
    ensures var r := Get(users, plans, authorization, verify);
      r.Ok? ==> forall k :: 0 <= k < |r.body| ==>
        Some(r.body[k].data.gymId) == GymOf(users, Authenticate(authorization, verify).uid)
  {
  }
}
