/**
 * The Firestore data the route handlers read and write, as values and as one mutable store.
 * Collections reached by key are maps; collections a handler lists are sequences of documents
 * in the order the store returns them.
 */
module DocStore {
  import opened Wrappers
  import Lists
  import Json

  /** A profile in `App_user`, keyed by uid; a field nobody wrote is `None`. */
  datatype User = User(
    userId: Option<string>,
    name: Option<string>,
    email: Option<string>,
    gymId: Option<string>,
    role: Option<string>,
    gymConnectionCode: Option<string>,
    status: Option<string>,
    createdAt: Option<string>,
    updatedAt: Option<string>)

  /** A gym under `App_user/gyms/gyms`; `members` holds uids (a missing array reads as empty). */
  datatype Gym = Gym(
    name: Option<string>,
    logo: string,
    address: Option<string>,
    workingDays: Option<seq<string>>,
    contactNumber: Option<string>,
    ownerId: string,
    members: seq<string>,
    createdAt: string,
    updatedAt: string)

  /** A gym in the root `Gym` collection, found by its `ownerId`. */
  datatype OwnedGym = OwnedGym(
    name: Option<string>,
    logo: Option<string>,
    address: Option<string>,
    workingDays: Option<seq<string>>,
    contactNumber: Option<string>,
    ownerId: string,
    createdAt: string,
    updatedAt: string)

  /** A record of a `Gym/{id}/Members` subcollection, keyed by the member's uid. */
  datatype MemberRecord = MemberRecord(
    userId: string,
    name: Option<string>,
    email: Option<string>,
    joinedAt: string,
    status: string)

  /** A membership plan under `App_user/gyms/gyms/{gymId}/plans`; a `NaN` price is `None`. */
  datatype Plan = Plan(
    name: string,
    price: Option<nat>,
    duration: string,
    description: string,
    gymId: string,
    createdAt: string,
    updatedAt: string)

  /** A document: its id and its data. */
  datatype Doc<T> = Doc(id: string, data: T)

  /** The documents of a subcollection; a subcollection nobody wrote to is empty. */
  function Docs<T>(m: map<string, seq<Doc<T>>>, key: string): seq<Doc<T>> {
    if key in m then m[key] else []
  }

  predicate UniqueIds<T>(docs: seq<Doc<T>>) {
    forall i, j :: 0 <= i < j < |docs| ==> docs[i].id != docs[j].id
  }

  predicate HasId<T>(docs: seq<Doc<T>>, id: string) {
    exists i :: 0 <= i < |docs| && docs[i].id == id
  }

  /** `users[uid]` exists and holds `code` as its connection code. */
  predicate HoldsCode(users: map<string, User>, uid: string, code: string) {
    uid in users && users[uid].gymConnectionCode == Some(code)
  }

  /** `where('gymConnectionCode', '==', code)` on `App_user` is not empty. */
  predicate HasCode(users: map<string, User>, code: string) {
    exists uid :: uid in users && HoldsCode(users, uid, code)
  }

  /** The uid the profile `uid` names as its gym, when the profile exists and `gymId` is truthy. */
  function GymOf(users: map<string, User>, uid: string): (g: Option<string>)
    ensures g.Some? <==> uid in users && Truthy(users[uid].gymId)
    ensures g.Some? ==> g.value != "" && Some(g.value) == users[uid].gymId
  {
    if uid in users && Truthy(users[uid].gymId) then users[uid].gymId else None
  }

  /** The first gym of the root `Gym` collection owned by `uid` (`where('ownerId', '==', uid).limit(1)`). */
  function OwnedBy(gyms: seq<Doc<OwnedGym>>, uid: string): (r: Option<nat>)
    ensures r.Some? ==> r.value < |gyms| && gyms[r.value].data.ownerId == uid
    ensures r.Some? ==> forall i :: 0 <= i < r.value ==> gyms[i].data.ownerId != uid
    ensures r.None? ==> forall i :: 0 <= i < |gyms| ==> gyms[i].data.ownerId != uid
  {
    if gyms == [] then None
    else if gyms[0].data.ownerId == uid then Some(0)
    else match OwnedBy(gyms[1..], uid)
      case None => None
      case Some(i) => Some(i + 1)
  }

  // ---- invariants the handlers keep ----

  /** No gym lists a member twice. */
  predicate MembersDistinct(gyms: map<string, Gym>) {
    forall g :: g in gyms ==> Lists.NoDup(gyms[g].members)
  }

  /** A profile whose `gymId` is set names an existing gym that lists the profile as a member. */
  predicate GymLinks(users: map<string, User>, gyms: map<string, Gym>) {
    forall uid :: uid in users && Truthy(users[uid].gymId) ==>
      users[uid].gymId.value in gyms && uid in gyms[users[uid].gymId.value].members
  }

  /** The root `Gym` collection holds at most one gym per owner. */
  predicate OneGymPerOwner(gyms: seq<Doc<OwnedGym>>) {
    forall i, j :: 0 <= i < j < |gyms| ==> gyms[i].data.ownerId != gyms[j].data.ownerId
  }

  /** Every member record sits under its member's uid. */
  predicate KeyedByUser(records: seq<Doc<MemberRecord>>) {
    forall i :: 0 <= i < |records| ==> records[i].data.userId == records[i].id
  }

  /** Every plan sits under the gym it records. */
  predicate PlansFiled(plans: map<string, seq<Doc<Plan>>>) {
    forall g :: g in plans ==> forall k :: 0 <= k < |plans[g]| ==> plans[g][k].data.gymId == g
  }

  class Store {
    var users: map<string, User>
    var gyms: map<string, Gym>
    var plans: map<string, seq<Doc<Plan>>>
    var exercises: map<string, seq<Doc<Json.Object>>>
    var ownedGyms: seq<Doc<OwnedGym>>
    var rosters: map<string, seq<Doc<MemberRecord>>>

    constructor ()
      ensures users == map[] && gyms == map[] && plans == map[] && exercises == map[]
      ensures ownedGyms == [] && rosters == map[]
      ensures Valid()
    {
      users, gyms, plans, exercises := map[], map[], map[], map[];
      ownedGyms, rosters := [], map[];
    }

    ghost predicate Valid()
      reads this
    {
      && MembersDistinct(gyms)
      && GymLinks(users, gyms)
      && OneGymPerOwner(ownedGyms)
      && UniqueIds(ownedGyms)
      && (forall g :: g in rosters ==> UniqueIds(rosters[g]) && KeyedByUser(rosters[g]))
      && (forall g :: g in plans ==> UniqueIds(plans[g]))
      && PlansFiled(plans)
      && (forall g :: g in exercises ==> UniqueIds(exercises[g]))
    }
  }

  /** With one gym per owner, the gym the owner query finds is the only one the owner has. */
  lemma OwnedByUnique(gyms: seq<Doc<OwnedGym>>, uid: string)
    requires OneGymPerOwner(gyms)
    requires OwnedBy(gyms, uid).Some?
    ensures forall i :: 0 <= i < |gyms| && gyms[i].data.ownerId == uid ==> i == OwnedBy(gyms, uid).value
  {
  }

  /** Adding a gym for an owner who has none keeps one gym per owner. */
  lemma AddOwnedGym(gyms: seq<Doc<OwnedGym>>, d: Doc<OwnedGym>)
    requires OneGymPerOwner(gyms)
    requires OwnedBy(gyms, d.data.ownerId).None?
    ensures OneGymPerOwner(gyms + [d])
  {
  }

  /** Appending a document whose id is new keeps ids unique. */
  lemma AddFreshId<T>(docs: seq<Doc<T>>, d: Doc<T>)
    requires !HasId(docs, d.id)
    ensures UniqueIds(docs) ==> UniqueIds(docs + [d])
  {
  }

  /** The owner query finds an appended gym when the owner had none before. */
  lemma {:induction false} OwnedByAppended(gyms: seq<Doc<OwnedGym>>, d: Doc<OwnedGym>)
    requires OwnedBy(gyms, d.data.ownerId).None?
    ensures OwnedBy(gyms + [d], d.data.ownerId) == Some(|gyms|)
  {
    if gyms != [] {
      assert (gyms + [d])[1..] == gyms[1..] + [d];
      OwnedByAppended(gyms[1..], d);
    }
  }
}
