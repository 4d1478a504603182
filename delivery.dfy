/**
 * Sequences of users/{userId} updates as the trigger delivers them, one
 * handler run per update. The handler keeps no state between runs, so the
 * barbers collection after a trace is the runs composed in delivery order.
 */
module Delivery {
  import opened Wrappers
  import opened RoleChange

  /** One update of users/{userId}, with the write time the store will assign if the handler writes. */
  datatype Update = Update(userId: string, before: Snapshot, after: Snapshot, writeTime: int)

  /** The latest observed snapshot of each user document. */
  type Users = map<string, Snapshot>

  /** A barber profile exists exactly for the users whose latest role is "barber". */
  ghost predicate Mirrors(users: Users, barbers: Barbers) {
    forall id :: id in barbers <==> id in users && IsBarber(users[id])
  }

  /** The ids whose documents a trace updates. */
  ghost function Ids(us: seq<Update>): set<string> {
    set i | 0 <= i < |us| :: us[i].userId
  }

  /** The barbers collection after every update of the trace has been handled, in order. */
  function Replay(barbers: Barbers, us: seq<Update>): (r: Barbers)
    ensures forall k :: k !in Ids(us) ==> (k in r <==> k in barbers) && (k in barbers ==> r[k] == barbers[k])
    decreases |us|
  {
    if us == [] then barbers
    else
      assert forall k :: k in Ids(us[1..]) ==> k in Ids(us) by {
        forall k | k in Ids(us[1..]) ensures k in Ids(us) {
          var i :| 0 <= i < |us[1..]| && us[1..][i].userId == k;
          assert us[i + 1].userId == k;
        }
      }
      assert us[0].userId in Ids(us);
      Replay(Reconcile(barbers, us[0].userId, us[0].before, us[0].after, us[0].writeTime), us[1..])
  }

  /** The user documents after the trace's updates. */
  function Observe(users: Users, us: seq<Update>): Users
    decreases |us|
  {
    if us == [] then users else Observe(users[us[0].userId := us[0].after], us[1..])
  }

  /** Each update of the trace starts from the latest observed snapshot of its user. */
  ghost predicate InOrder(users: Users, us: seq<Update>)
    decreases |us|
  {
    us == [] ||
    (us[0].userId in users && users[us[0].userId] == us[0].before &&
     InOrder(users[us[0].userId := us[0].after], us[1..]))
  }

  /** One handler run restores the mirror for the updated user and leaves it for the others. */
  lemma ReconcileKeepsMirror(users: Users, barbers: Barbers, u: Update)
    requires Mirrors(users, barbers)
    requires u.userId in users && users[u.userId] == u.before
    ensures Mirrors(users[u.userId := u.after], Reconcile(barbers, u.userId, u.before, u.after, u.writeTime))
  {
    var r := Reconcile(barbers, u.userId, u.before, u.after, u.writeTime);
    var users' := users[u.userId := u.after];
    forall id ensures id in r <==> id in users' && IsBarber(users'[id]) {
      if id != u.userId {
        assert id in r <==> id in barbers;
      }
    }
  }

  /** Handling an in-order trace keeps barber profiles in step with the users' latest roles. */
  lemma {:induction false} ReplayKeepsMirror(users: Users, barbers: Barbers, us: seq<Update>)
    requires Mirrors(users, barbers)
    requires InOrder(users, us)
    ensures Mirrors(Observe(users, us), Replay(barbers, us))
    decreases |us|
  {
    if us != [] {
      ReconcileKeepsMirror(users, barbers, us[0]);
      ReplayKeepsMirror(users[us[0].userId := us[0].after], Reconcile(barbers, us[0].userId, us[0].before, us[0].after, us[0].writeTime), us[1..]);
    }
  }

  /** A duplicate delivery right after the original leaves what the later delivery alone leaves. */
  lemma DuplicateDeliveryIsHarmless(barbers: Barbers, u: Update, t: int)
    ensures Replay(barbers, [u, u.(writeTime := t)]) == Replay(barbers, [u.(writeTime := t)])
  {
    var d := u.(writeTime := t);
    assert [u, d][1..] == [d];
    assert [d][1..] == [];
    RedeliveryOverwrites(barbers, u.userId, u.before, u.after, u.writeTime, t);
  }

  /**
   * Delivery order matters and the handler does not guard against reordering:
   * a promotion followed by a demotion, handled in the opposite order, leaves
   * a profile for a user whose latest role is not "barber".
   */
  lemma ReorderedDeliveryBreaksMirror()
    ensures var customer := Snapshot(Some("customer"), None, None);
      var barber := Snapshot(Some("barber"), None, None);
      var promote, demote := Update("u", customer, barber, 1), Update("u", barber, customer, 2);
      var users: Users := map["u" := customer];
      var barbers: Barbers := map[];
      && InOrder(users, [promote, demote])
      && Mirrors(Observe(users, [promote, demote]), Replay(barbers, [promote, demote]))
      && !Mirrors(Observe(users, [promote, demote]), Replay(barbers, [demote, promote]))
  {
    var customer := Snapshot(Some("customer"), None, None);
    var barber := Snapshot(Some("barber"), None, None);
    var promote, demote := Update("u", customer, barber, 1), Update("u", barber, customer, 2);
    var users: Users := map["u" := customer];
    var barbers: Barbers := map[];
    assert [promote, demote][1..] == [demote];
    assert [demote, promote][1..] == [promote];
    assert [demote][1..] == [] && [promote][1..] == [];
    ReplayKeepsMirror(users, barbers, [promote, demote]);
    assert "u" in Replay(barbers, [demote, promote]);
    assert Observe(users, [promote, demote]) == Observe(users["u" := barber], [demote]);
    assert Observe(users["u" := barber], [demote]) == users["u" := barber]["u" := customer];
    assert Observe(users, [promote, demote])["u"] == customer;
  }
}
