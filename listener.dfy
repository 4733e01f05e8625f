/**
 * The change listener: which permission events lead to a reconciliation, for
 * whom, and the bookkeeping of its event subscriptions.
 */
module Listener {
  import opened Wrappers
  import opened Quota
  import opened Manager

  /** The holder a node event is about. */
  datatype Holder = UserHolder(user: User) | GroupHolder(name: string)

  /** The events the listener is subscribed to. */
  datatype Event =
    | UserPromote(user: User)
    | UserDemote(user: User)
    | NodeAdd(target: Holder, node: Node)
    | NodeRemove(target: Holder, node: Node)
    | PlayerJoin(id: Uuid, name: string)

  /** A reconciliation of one player, as `updatePlayerPermissions(id, name)` receives it. */
  datatype Update = Update(id: Uuid, name: string)

  /** What the listener schedules in response to an event. */
  datatype Action =
    | ScheduleUser(user: User)     // `schedulePermissionUpdate(user)`, after a delay
    | FanOut(groupName: string)    // `updateAllUsersInGroup(groupName)`
    | Reconcile(update: Update)    // a direct, delayed reconciliation

  /** The two independent filters of `onNodeAdd` and `onNodeRemove`, which treat both alike. */
  function OnNodeChange(target: Holder, node: Node): seq<Action> {
    (if target.UserHolder? && node.isInheritance then [ScheduleUser(target.user)] else [])
    + (if IsQuotaKey(node.key) && target.GroupHolder? then [FanOut(target.name)] else [])
  }

  /** The routing of every subscribed event. */
  function Route(e: Event): (actions: seq<Action>)
    ensures |actions| <= 1
    ensures e.UserPromote? || e.UserDemote? ==> actions == [ScheduleUser(e.user)]
    ensures e.PlayerJoin? ==> actions == [Reconcile(Update(e.id, e.name))]
    ensures e.NodeAdd? || e.NodeRemove? ==>
      (actions != [] <==> (e.target.UserHolder? && e.node.isInheritance)
                          || (e.target.GroupHolder? && IsQuotaKey(e.node.key)))
    ensures forall a :: a in actions && a.ScheduleUser? ==>
      || ((e.UserPromote? || e.UserDemote?) && a.user == e.user)
      || ((e.NodeAdd? || e.NodeRemove?) && e.target == UserHolder(a.user) && e.node.isInheritance)
    ensures forall a :: a in actions && a.FanOut? ==>
      (e.NodeAdd? || e.NodeRemove?) && e.target == GroupHolder(a.groupName) && IsQuotaKey(e.node.key)
    ensures (e.NodeAdd? || e.NodeRemove?) && e.target.UserHolder? && e.node.isInheritance ==>
      actions == [ScheduleUser(e.target.user)]
    ensures (e.NodeAdd? || e.NodeRemove?) && e.target.GroupHolder? && IsQuotaKey(e.node.key) ==>
      actions == [FanOut(e.target.name)]
    ensures (e.NodeAdd? || e.NodeRemove?) && e.target.UserHolder? && !e.node.isInheritance ==> actions == []
    ensures forall a :: a in actions && a.Reconcile? ==> e.PlayerJoin?
  {
    match e
    case UserPromote(user) => [ScheduleUser(user)]
    case UserDemote(user) => [ScheduleUser(user)]
    case NodeAdd(target, node) => OnNodeChange(target, node)
    case NodeRemove(target, node) => OnNodeChange(target, node)
    case PlayerJoin(id, name) => [Reconcile(Update(id, name))]
  }

  /** The guard of `schedulePermissionUpdate` and of the fan-out: only a user with a non-empty name is reconciled. */
  function GuardedUpdate(user: User): (r: Option<Update>)
    ensures r.Some? <==> user.username.Some? && user.username.value != ""
    ensures r.Some? ==> r.value.id == user.uniqueId && Some(r.value.name) == user.username
  {
    match user.username
    case Some(name) => if name != "" then Some(Update(user.uniqueId, name)) else None
    case None => None
  }

  /**
   * The reconciler's own writes never set off another reconciliation: on a
   * user, the removal of every quota node it finds (the permission store
   * never types a quota key as an inheritance node), including one equal to
   * the node it is about to write, and the addition of the new quota node
   * route to nothing.
   */
  lemma ReconcilerWritesAreSilent(user: User, nodes: set<Node>, total: nat)
    requires forall n :: n in nodes && IsQuotaKey(n.key) ==> !n.isInheritance
    ensures forall n :: n in nodes && IsQuotaKey(n.key) ==> Route(NodeRemove(UserHolder(user), n)) == []
    ensures Route(NodeAdd(UserHolder(user), QuotaNode(total))) == []
  {
    assert !QuotaNode(total).isInheritance;
  }

  // ---------------------------------------------------------------------------
  // Group fan-out
  // ---------------------------------------------------------------------------

  /** The user's primary group is `groupName`, or one of its inherited groups is named so. */
  predicate IsMember(user: User, groupName: string) {
    user.primaryGroup == groupName
    || exists j :: 0 <= j < |user.inheritedGroups| && user.inheritedGroups[j].name == groupName
  }

  /** The reconciliations a fan-out schedules over the loaded users, in order. */
  function FanOutTargets(users: seq<User>, groupName: string): seq<Update> {
    if users == [] then []
    else
      var last := users[|users| - 1];
      FanOutTargets(users[..|users| - 1], groupName)
      + (if IsMember(last, groupName) && GuardedUpdate(last).Some? then [GuardedUpdate(last).value] else [])
  }

  /**
   * A fan-out schedules exactly the loaded members of the group that have a
   * name: each of them, and nobody else, at most one update per loaded user.
   */
  lemma {:induction false} FanOutSelectsMembers(users: seq<User>, groupName: string)
    ensures |FanOutTargets(users, groupName)| <= |users|
    ensures forall k :: 0 <= k < |users| && IsMember(users[k], groupName) && GuardedUpdate(users[k]).Some? ==>
      GuardedUpdate(users[k]).value in FanOutTargets(users, groupName)
    ensures forall u :: u in FanOutTargets(users, groupName) ==>
      exists k :: 0 <= k < |users| && IsMember(users[k], groupName) && GuardedUpdate(users[k]) == Some(u)
  {
    if users != [] {
      var init := users[..|users| - 1];
      FanOutSelectsMembers(init, groupName);
      assert forall k :: 0 <= k < |init| ==> init[k] == users[k];
    }
  }

  /**
   * `updateAllUsersInGroup`: without the permission service nothing happens;
   * otherwise every loaded member with a name is scheduled and counted.
   */
  method UpdateAllUsersInGroup(groupName: string, luckPermsPresent: bool, loadedUsers: seq<User>)
    returns (scheduled: seq<Update>, updatedCount: int)
    ensures !luckPermsPresent ==> scheduled == []
    ensures luckPermsPresent ==> scheduled == FanOutTargets(loadedUsers, groupName)
    ensures updatedCount == |scheduled|
  {
    scheduled, updatedCount := [], 0;
    if !luckPermsPresent {
      return;
    }
    for i := 0 to |loadedUsers|
      invariant scheduled == FanOutTargets(loadedUsers[..i], groupName)
      invariant updatedCount == |scheduled|
    {
      var user := loadedUsers[i];
      assert loadedUsers[..i + 1][..i] == loadedUsers[..i];
      if IsMember(user, groupName) {
        var update := GuardedUpdate(user);
        if update.Some? {
          scheduled := scheduled + [update.value];
          updatedCount := updatedCount + 1;
        }
      }
    }
    assert loadedUsers[..|loadedUsers|] == loadedUsers;
  }

  // ---------------------------------------------------------------------------
  // Subscriptions
  // ---------------------------------------------------------------------------

  /** An event-bus subscription; closing it may throw, which leaves it as it was. */
  class Subscription {
    var active: bool
    const failsOnClose: bool

    constructor(failsOnClose: bool)
      ensures active && this.failsOnClose == failsOnClose
    {
      active := true;
      this.failsOnClose := failsOnClose;
    }

    method Close() returns (closed: bool)
      modifies this
      ensures closed == !failsOnClose
      ensures active == (old(active) && failsOnClose)
    {
      closed := !failsOnClose;
      if closed {
        active := false;
      }
    }
  }

  class GroupChangeListener {
    var subscriptions: seq<Subscription>

    /**
     * `registerLuckPermsEvents`: one subscription per event kind (promote,
     * demote, node add, node remove) when the permission service is there.
     * `failing` holds the positions of the subscriptions whose close will throw.
     */
    constructor(luckPermsPresent: bool, failing: set<nat>)
      ensures |subscriptions| == if luckPermsPresent then 4 else 0
      ensures forall s :: s in subscriptions ==> fresh(s) && s.active
    {
      subscriptions := [];
      if luckPermsPresent {
        var promote := new Subscription(0 in failing);
        var demote := new Subscription(1 in failing);
        var add := new Subscription(2 in failing);
        var remove := new Subscription(3 in failing);
        subscriptions := [promote, demote, add, remove];
      }
    }

    /** `disable`: try to close every subscription, carrying on past failures, then forget them all. */
    method Disable()
      modifies this, subscriptions
      ensures subscriptions == []
      ensures forall s :: s in old(subscriptions) ==> s.active == (old(s.active) && s.failsOnClose)
    {
      var subs := subscriptions;
      for i := 0 to |subs|
        invariant forall s :: s in subs[..i] ==> s.active == (old(s.active) && s.failsOnClose)
        invariant forall s :: s in subs[i..] && s !in subs[..i] ==> s.active == old(s.active)
      {
        var sub := subs[i];
        assert subs[..i + 1] == subs[..i] + [sub];
        var _ := sub.Close();
      }
      assert subs[..|subs|] == subs;
      subscriptions := [];
    }
  }
}
