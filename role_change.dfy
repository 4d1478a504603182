/**
 * The role-transition reconciler of the barber app's cloud functions
 * (functions/index.js, onUserRoleChange). When a users/{userId} document is
 * updated, the handler compares the `role` field before and after the update
 * and creates, deletes or leaves alone the document barbers/{userId}, so that
 * a barber profile exists exactly for the users whose role is "barber".
 */
module RoleChange {
  import opened Wrappers

  /** The one role value the reconciler reacts to. */
  const Barber: string := "barber"

  /** The placeholder bio written into every new barber profile. */
  const WelcomeBio: string := "Welcome! Please update your professional bio."

  /** The fields of a users/{userId} snapshot that the handler reads. */
  datatype Snapshot = Snapshot(role: Option<string>, username: Option<string>, email: Option<string>)

  /** The fields the handler writes into barbers/{userId}, all but `createdAt`. */
  datatype Profile = Profile(
    fullName: string,
    email: string,
    bio: string,
    services: seq<string>,
    rating: real,
    totalRatings: int)

  /** A stored barber document: the written fields and the write time the store assigned to `createdAt`. */
  datatype BarberDoc = BarberDoc(profile: Profile, createdAt: int)

  /** What the handler does to the barbers collection for one update. */
  datatype Action = NoOp | Create(profile: Profile) | Delete

  /** The handler's return value: `null` (no store call), or the outcome of the set/delete it returned. */
  datatype Reply = NoWrite | Committed | StoreFailed

  /** One call the handler makes on the store, whether or not the store accepts it. */
  datatype StoreCall = SetCall(id: string, profile: Profile, now: int) | DeleteCall(id: string)

  /** The barbers collection: document id to document. */
  type Barbers = map<string, BarberDoc>

  predicate IsBarber(s: Snapshot) {
    s.role == Some(Barber)
  }

  /** Every document other than `id` is present in `t` exactly when it is in `s`, with the same contents. */
  ghost predicate UntouchedExcept(s: Barbers, t: Barbers, id: string) {
    forall k :: k != id ==> (k in t <==> k in s) && (k in s ==> t[k] == s[k])
  }

  /** JavaScript's `v || ""` on an optional string field: a present value is kept, an absent one becomes "". */
  function OrEmpty(v: Option<string>): (r: string)
    ensures v.Some? ==> r == v.value
    ensures v.None? ==> r == ""
  {
    if v.Some? && v.value != "" then v.value else ""
  }

  /** The profile written on promotion, built from the updated user snapshot. */
  function NewProfile(after: Snapshot): (p: Profile)
    ensures p.fullName == (if after.username.Some? then after.username.value else "")
    ensures p.email == (if after.email.Some? then after.email.value else "")
    ensures p.bio == WelcomeBio && p.services == [] && p.rating == 0.0 && p.totalRatings == 0
  {
    Profile(
      fullName := OrEmpty(after.username),
      email := OrEmpty(after.email),
      bio := WelcomeBio,
      services := [],
      rating := 0.0,
      totalRatings := 0)
  }

  /**
   * The handler's decision, in the order the source tests its conditions.
   * Its contract is the two-state machine over {barber, not barber}:
   * create on promotion, delete on demotion, nothing on the diagonal.
   */
  function Decide(before: Snapshot, after: Snapshot): (a: Action)
    ensures a.Create? <==> !IsBarber(before) && IsBarber(after)
    ensures a.Delete? <==> IsBarber(before) && !IsBarber(after)
    ensures a.NoOp? <==> (IsBarber(before) <==> IsBarber(after))
    ensures before.role == after.role ==> a.NoOp?
    ensures a.Create? ==> a.profile == NewProfile(after)
  {
    if before.role == after.role then NoOp
    else if after.role == Some(Barber) then Create(NewProfile(after))
    else if before.role == Some(Barber) && after.role != Some(Barber) then Delete
    else NoOp
  }

  /**
   * A successful store call for `action` on barbers/{id}: `set` overwrites the
   * whole document, stamping `createdAt` with the store's write time `now`;
   * `delete` of a missing document succeeds and changes nothing.
   */
  function Apply(barbers: Barbers, id: string, action: Action, now: int): (r: Barbers)
    ensures UntouchedExcept(barbers, r, id)
    ensures action.NoOp? ==> r == barbers
    ensures action.Create? ==> id in r && r[id] == BarberDoc(action.profile, now)
    ensures action.Delete? ==> id !in r
    ensures action.Delete? && id !in barbers ==> r == barbers
  {
    match action
    case NoOp => barbers
    case Create(p) => barbers[id := BarberDoc(p, now)]
    case Delete => barbers - {id}
  }

  /** The barbers collection after the handler has run for one update of users/{id} and its store call succeeded. */
  function Reconcile(barbers: Barbers, id: string, before: Snapshot, after: Snapshot, now: int): (r: Barbers)
    ensures before.role == after.role ==> r == barbers
    ensures IsBarber(before) == IsBarber(after) ==> r == barbers
    ensures !IsBarber(before) && IsBarber(after) ==> id in r && r[id] == BarberDoc(NewProfile(after), now)
    ensures IsBarber(before) && !IsBarber(after) ==> id !in r && (id !in barbers ==> r == barbers)
    ensures UntouchedExcept(barbers, r, id)
    ensures (id in barbers <==> IsBarber(before)) ==> (id in r <==> IsBarber(after))
  {
    Apply(barbers, id, Decide(before, after), now)
  }

  /** Redelivering an update: the second run leaves what one run with the later write time leaves. */
  lemma RedeliveryOverwrites(barbers: Barbers, id: string, before: Snapshot, after: Snapshot, t1: int, t2: int)
    ensures Reconcile(Reconcile(barbers, id, before, after, t1), id, before, after, t2)
         == Reconcile(barbers, id, before, after, t2)
  {
  }

  /** Running the handler twice on the same update and write time leaves what one run leaves. */
  lemma ReconcileIdempotent(barbers: Barbers, id: string, before: Snapshot, after: Snapshot, now: int)
    ensures Reconcile(Reconcile(barbers, id, before, after, now), id, before, after, now)
         == Reconcile(barbers, id, before, after, now)
  {
    RedeliveryOverwrites(barbers, id, before, after, now, now);
  }

  /** Two runs with different write times agree on everything but `createdAt`. */
  lemma WriteTimeOnlyAffectsCreatedAt(barbers: Barbers, id: string, before: Snapshot, after: Snapshot, t1: int, t2: int)
    ensures var r1, r2 := Reconcile(barbers, id, before, after, t1), Reconcile(barbers, id, before, after, t2);
      r1.Keys == r2.Keys && forall k :: k in r1 ==> r1[k].profile == r2[k].profile
  {
  }

  /**
   * Only whether each role is "barber" matters: updates with the same two
   * barber bits and the same username and email lead to the same action.
   * So the handler is safe to run on updates unrelated to the role.
   */
  lemma DecideDependsOnlyOnBarberBits(b1: Snapshot, a1: Snapshot, b2: Snapshot, a2: Snapshot)
    requires IsBarber(b1) == IsBarber(b2) && IsBarber(a1) == IsBarber(a2)
    requires a1.username == a2.username && a1.email == a2.email
    ensures Decide(b1, a1) == Decide(b2, a2)
  {
  }

  /** Promotion of a customer with a username and an email. */
  lemma PromotionExample(barbers: Barbers, id: string, now: int)
    ensures var before := Snapshot(Some("customer"), None, None);
      var after := Snapshot(Some("barber"), Some("Al"), Some("al@x.com"));
      var r := Reconcile(barbers, id, before, after, now);
      id in r && r[id] == BarberDoc(Profile("Al", "al@x.com", WelcomeBio, [], 0.0, 0), now)
  {
  }

  /** Demotion of a barber to customer removes the profile. */
  lemma DemotionExample(barbers: Barbers, id: string, now: int)
    ensures var before := Snapshot(Some("barber"), None, None);
      var after := Snapshot(Some("customer"), None, None);
      Reconcile(barbers, id, before, after, now) == barbers - {id}
  {
  }

  /** An admin staying admin, and a customer becoming manager, make no store call. */
  lemma NonBarberChangesExample(barbers: Barbers, id: string, now: int)
    ensures var admin := Snapshot(Some("admin"), None, None);
      Decide(admin, admin) == NoOp && Reconcile(barbers, id, admin, admin, now) == barbers
    ensures var customer, manager := Snapshot(Some("customer"), None, None), Snapshot(Some("manager"), None, None);
      Decide(customer, manager) == NoOp
  {
  }

  /**
   * The barbers collection as the handler sees it through `admin.firestore()`:
   * one shared handle whose `set` and `delete` change the collection in place.
   * `available` says whether the store accepts the call; a failed call changes
   * nothing and its failure is returned to the caller unchanged. `calls` is
   * the history of the store calls made through the handle.
   */
  class BarbersCollection {
    var docs: Barbers
    ghost var calls: seq<StoreCall>

    constructor (initial: Barbers)
      ensures docs == initial && calls == []
    {
      docs := initial;
      calls := [];
    }

    /** `barbers/{id}.set(profile)`: create or overwrite the whole document. */
    method SetDoc(id: string, profile: Profile, now: int, available: bool) returns (reply: Reply)
      modifies this
      ensures reply == (if available then Committed else StoreFailed)
      ensures docs == if available then old(docs)[id := BarberDoc(profile, now)] else old(docs)
      ensures calls == old(calls) + [SetCall(id, profile, now)]
    {
      calls := calls + [SetCall(id, profile, now)];
      if !available {
        return StoreFailed;
      }
      docs := docs[id := BarberDoc(profile, now)];
      return Committed;
    }

    /** `barbers/{id}.delete()`: succeeds whether or not the document exists. */
    method DeleteDoc(id: string, available: bool) returns (reply: Reply)
      modifies this
      ensures reply == (if available then Committed else StoreFailed)
      ensures docs == if available then old(docs) - {id} else old(docs)
      ensures calls == old(calls) + [DeleteCall(id)]
    {
      calls := calls + [DeleteCall(id)];
      if !available {
        return StoreFailed;
      }
      docs := docs - {id};
      return Committed;
    }

    /** The handler body for one update of users/{userId}. */
    method OnUserRoleChange(userId: string, before: Snapshot, after: Snapshot, now: int, available: bool)
      returns (reply: Reply)
      modifies this
      ensures reply == NoWrite <==> Decide(before, after).NoOp?
      ensures reply == StoreFailed <==> !Decide(before, after).NoOp? && !available
      ensures docs == if reply == Committed then Reconcile(old(docs), userId, before, after, now) else old(docs)
      ensures calls == old(calls) + match Decide(before, after)
        case NoOp => []
        case Create(p) => [SetCall(userId, p, now)]
        case Delete => [DeleteCall(userId)]
    {
      if before.role == after.role {
        return NoWrite;
      }
      if after.role == Some(Barber) {
        reply := SetDoc(userId, NewProfile(after), now, available);
        return;
      }
      if before.role == Some(Barber) && after.role != Some(Barber) {
        reply := DeleteDoc(userId, available);
        return;
      }
      return NoWrite;
    }
  }
}
