/**
 * `/api/gym-exercises`: the exercise library of the caller's gym, under
 * `App_user/gyms/gyms/{gymId}/exercises`. Exercise documents are free-form JSON objects.
 * POST stores the body stamped with `createdAt` and `createdBy`; GET lists the documents, each
 * with its document id as `exerciseId`.
 */
module GymExercisesRoute {
  import opened Wrappers
  import opened Http
  import opened DocStore
  import opened BearerAuth
  import opened Json

  /** One listed exercise: `{ exerciseId: doc.id, ...doc.data() }`. */
  function Listed(d: Doc<Object>): (o: Object)
    ensures o.Keys == d.data.Keys + {"exerciseId"}
    ensures forall k :: k in d.data ==> o[k] == d.data[k]
    ensures "exerciseId" !in d.data ==> o["exerciseId"] == JStr(d.id)
  {
    FieldThenSpread("exerciseId", JStr(d.id), d.data)
  }

  function ListAll(docs: seq<Doc<Object>>): (r: seq<Object>)
    ensures |r| == |docs|
    ensures forall i :: 0 <= i < |docs| ==> r[i] == Listed(docs[i])
  {
    seq(|docs|, i requires 0 <= i < |docs| => Listed(docs[i]))
  }

  function Get(users: map<string, User>, exercises: map<string, seq<Doc<Object>>>,
               authorization: Option<string>, verify: string -> Option<string>): (r: Response<seq<Object>>)
    ensures r.status in {200, 401, 404}
    ensures Authenticate(authorization, verify).NoBearer? ==> r == Fail(401, "Unauthorized: Missing or invalid token")
    ensures Authenticate(authorization, verify).Rejected? ==> r == Fail(401, "Unauthorized: Invalid token")
    ensures var c := Authenticate(authorization, verify);
      c.Verified? ==>
        if c.uid !in users then r == Fail(404, "User not found")
        else if !Truthy(users[c.uid].gymId) then r == Fail(404, "Gym not found for this user")
        else r == Ok(200, ListAll(Docs(exercises, users[c.uid].gymId.value)))
  {
    match Authenticate(authorization, verify)
    case NoBearer => Fail(401, "Unauthorized: Missing or invalid token")
    case Rejected => Fail(401, "Unauthorized: Invalid token")
    case Verified(uid) =>
      if uid !in users then Fail(404, "User not found")
      else if !Truthy(users[uid].gymId) then Fail(404, "Gym not found for this user")
      else Ok(200, ListAll(Docs(exercises, users[uid].gymId.value)))
  }

  /** Every listed exercise whose stored data has no `exerciseId` field carries its document id there. */
  lemma ListedIdsAreDocIds(docs: seq<Doc<Object>>)
    ensures forall i :: 0 <= i < |docs| && "exerciseId" !in docs[i].data ==>
      ListAll(docs)[i]["exerciseId"] == JStr(docs[i].id)
  {
  }

  /** The document POST stores: `{ ...body, createdAt, createdBy }`. */
  function NewExercise(body: Object, uid: string, createdAt: string): (o: Object)
    ensures o.Keys == body.Keys + {"createdAt", "createdBy"}
    ensures o["createdBy"] == JStr(uid) && o["createdAt"] == JStr(createdAt)
    ensures forall k :: k in body && k != "createdAt" && k != "createdBy" ==> o[k] == body[k]
  {
    SpreadThenField(SpreadThenField(body, "createdAt", JStr(createdAt)), "createdBy", JStr(uid))
  }

  /**
   * Handles one POST. `newExerciseId` is the id the store generates for the added document;
   * `createdAt` is the handler's clock read.
   */
  method Post(store: Store, authorization: Option<string>, verify: string -> Option<string>, body: Object,
              newExerciseId: string, createdAt: string)
    returns (response: Response<Object>)
    requires forall g :: g in store.exercises ==> !HasId(store.exercises[g], newExerciseId)
    modifies store
    ensures response.status in {201, 401, 404}
    ensures response.status != 201 ==> unchanged(store)
    ensures Authenticate(authorization, verify).NoBearer? ==>
      response == Fail(401, "Unauthorized: Missing or invalid token")
    ensures Authenticate(authorization, verify).Rejected? ==>
      response == Fail(401, "Unauthorized: Invalid token")
    ensures var c := Authenticate(authorization, verify);
      c.Verified? ==>
        match GymOf(old(store.users), c.uid)
        case None => response == Fail(404, "You do not own a gym")
        case Some(gymId) =>
          var stored := Doc(newExerciseId, NewExercise(body, c.uid, createdAt));
          && response == Ok(201, Listed(stored))
          && store.exercises == old(store.exercises)[gymId := Docs(old(store.exercises), gymId) + [stored]]
    ensures store.users == old(store.users) && store.gyms == old(store.gyms)
    ensures store.plans == old(store.plans)
    ensures store.ownedGyms == old(store.ownedGyms) && store.rosters == old(store.rosters)
    ensures old(store.Valid()) ==> store.Valid()
  {
    var caller := Authenticate(authorization, verify);
    if caller.NoBearer? {
      return Fail(401, "Unauthorized: Missing or invalid token");
    }
    if caller.Rejected? {
      return Fail(401, "Unauthorized: Invalid token");
    }
    var userId := caller.uid;
    var gym := GymOf(store.users, userId);
    if gym.None? {
      return Fail(404, "You do not own a gym");
    }
    var gymId := gym.value;
    var stored := Doc(newExerciseId, NewExercise(body, userId, createdAt));
    var listed := Docs(store.exercises, gymId);
    store.exercises := store.exercises[gymId := listed + [stored]];
    AddFreshId(listed, stored);
    return Ok(201, Listed(stored));
  }

  /**
   * Whatever the body holds, the stored exercise and the response name the caller as `createdBy`,
   * and the response's `exerciseId` is the new id unless the body supplied its own.
   */
  lemma CreatedByIsCaller(body: Object, uid: string, newExerciseId: string, createdAt: string)
    ensures var o := Listed(Doc(newExerciseId, NewExercise(body, uid, createdAt)));
      && o["createdBy"] == JStr(uid)
      && ("exerciseId" !in body ==> o["exerciseId"] == JStr(newExerciseId))
      && ("exerciseId" in body ==> o["exerciseId"] == body["exerciseId"])
  {
  }

  /** A body carrying its own `exerciseId` hides the new document id in the POST response. */
  lemma BodyExerciseIdWins()
    ensures var body := map["exerciseId" := JStr("mine")];
      Listed(Doc("generated", NewExercise(body, "uid", "now")))["exerciseId"] != JStr("generated")
  {
    var body := map["exerciseId" := JStr("mine")];
    var o := NewExercise(body, "uid", "now");
    assert o["exerciseId"] == JStr("mine");
  }
}
