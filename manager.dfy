/**
 * The warp-quota engine: the bonus ledger, the group-limit resolver and the
 * reconciler that rewrites a user's single quota node.
 */
module Manager {
  import opened Wrappers
  import opened Text
  import opened Quota

  // ---------------------------------------------------------------------------
  // Bonus ledger
  // ---------------------------------------------------------------------------

  /** The bonus ledger: player id to bonus count, a Java `int`. */
  type Ledger = map<Uuid, Int32>

  /** The ledger never holds a count of zero or less. */
  predicate Positive(m: Ledger) {
    forall id :: id in m ==> m[id] > 0
  }

  /** What a read of the ledger reports for `id`: the stored count, or 0 without an entry. */
  function Lookup(m: Ledger, id: Uuid): (n: Int32)
    ensures id !in m ==> n == 0
    ensures id in m ==> n == m[id]
    ensures Positive(m) ==> n >= 0
  {
    if id in m then m[id] else 0
  }

  /** The ledger after storing `amount` for `id`: a positive amount is kept, anything else deletes the entry. */
  function Store(m: Ledger, id: Uuid, amount: Int32): (r: Ledger)
    ensures Lookup(r, id) == if amount > 0 then amount else 0
    ensures id in r <==> amount > 0
    ensures forall other :: other != id ==> (other in r <==> other in m)
    ensures forall other :: other != id && other in r ==> r[other] == m[other]
    ensures Positive(m) ==> Positive(r)
  {
    if amount > 0 then m[id := amount] else m - {id}
  }

  /** The ledger after one automatic grant to `id`: the count plus one in Java `int` arithmetic, then stored. */
  function Increment(m: Ledger, id: Uuid): Ledger {
    Store(m, id, Wrap32(Lookup(m, id) + 1))
  }

  /** The ledger after `k` successive grants to `id`. */
  function IncrementTimes(m: Ledger, id: Uuid, k: nat): Ledger {
    if k == 0 then m else Increment(IncrementTimes(m, id, k - 1), id)
  }

  /**
   * `k` grants that stay within Java `int` range raise the count by exactly
   * `k`; from an absent entry they leave exactly `k`.
   */
  lemma {:induction false} IncrementTimesCounts(m: Ledger, id: Uuid, k: nat)
    requires Positive(m)
    requires Lookup(m, id) + k <= IntMax
    ensures Positive(IncrementTimes(m, id, k))
    ensures Lookup(IncrementTimes(m, id, k), id) == Lookup(m, id) + k
    ensures id !in m ==> Lookup(IncrementTimes(m, id, k), id) == k
  {
    if k > 0 {
      IncrementTimesCounts(m, id, k - 1);
    }
  }

  /**
   * A grant to a count of 2147483647 overflows to a negative sum, which is
   * stored as a deletion: the count drops to 0 and the entry disappears.
   */
  lemma IncrementAtIntMaxDeletes(m: Ledger, id: Uuid)
    requires Lookup(m, id) == IntMax
    ensures id !in Increment(m, id) && Lookup(Increment(m, id), id) == 0
  {
  }

  // ---------------------------------------------------------------------------
  // Group limit resolver
  // ---------------------------------------------------------------------------

  function Max(a: int, b: int): int {
    if a < b then b else a
  }

  /** The running maximum, starting at 0, of the limits the nodes advertise, in order. */
  function NodesLimit(nodes: seq<Node>): int {
    if nodes == [] then 0
    else
      var rest := NodesLimit(nodes[..|nodes| - 1]);
      match AdvertisedLimit(nodes[|nodes| - 1])
      case Some(v) => Max(rest, v)
      case None => rest
  }

  /** Some node in `nodes` advertises `v`. */
  predicate Advertises(nodes: seq<Node>, v: int) {
    exists i :: 0 <= i < |nodes| && AdvertisedLimit(nodes[i]) == Some(v)
  }

  /** No node in `nodes` advertises more than `v`. */
  predicate Bounds(nodes: seq<Node>, v: int) {
    forall i :: 0 <= i < |nodes| && AdvertisedLimit(nodes[i]).Some? ==> AdvertisedLimit(nodes[i]).value <= v
  }

  /** The limit of a node list is the largest advertised limit, or 0 when that is larger or there is none. */
  lemma {:induction false} NodesLimitIsMaximum(nodes: seq<Node>)
    ensures NodesLimit(nodes) >= 0
    ensures Bounds(nodes, NodesLimit(nodes))
    ensures NodesLimit(nodes) == 0 || Advertises(nodes, NodesLimit(nodes))
  {
    if nodes != [] {
      var init := nodes[..|nodes| - 1];
      NodesLimitIsMaximum(init);
      assert forall i :: 0 <= i < |init| ==> init[i] == nodes[i];
      if NodesLimit(nodes) != 0 && NodesLimit(nodes) == NodesLimit(init) {
        var i :| 0 <= i < |init| && AdvertisedLimit(init[i]) == Some(NodesLimit(init));
        assert AdvertisedLimit(nodes[i]) == Some(NodesLimit(nodes));
      }
    }
  }

  /** `getWarpLimitFromNodes`: a loop keeping the largest parsable quota suffix seen so far. */
  method WarpLimitFromNodes(nodes: seq<Node>) returns (limit: int)
    ensures limit == NodesLimit(nodes)
  {
    limit := 0;
    for i := 0 to |nodes|
      invariant limit == NodesLimit(nodes[..i])
    {
      var node := nodes[i];
      assert nodes[..i + 1][..i] == nodes[..i];
      if IsQuotaKey(node.key) && node.value {
        var parsed := ParseInt(node.key[|Prefix|..]);
        if parsed.Some? {
          limit := Max(limit, parsed.value);
        }
      }
    }
    assert nodes[..|nodes|] == nodes;
  }

  /** The primary group's contribution: its limit when the group manager knows it, else 0. */
  function PrimaryLimit(groups: map<string, Group>, primary: string): int {
    if primary in groups then Max(0, NodesLimit(groups[primary].nodes)) else 0
  }

  /** The running maximum over the primary group and then each inherited group, in order. */
  function GroupLimit(groups: map<string, Group>, primary: string, inherited: seq<Group>): int {
    if inherited == [] then PrimaryLimit(groups, primary)
    else Max(GroupLimit(groups, primary, inherited[..|inherited| - 1]),
             NodesLimit(inherited[|inherited| - 1].nodes))
  }

  /**
   * The group limit is the largest limit advertised by any node of the primary
   * group (if known) or of any inherited group, or 0 when none is larger.
   */
  lemma {:induction false} GroupLimitIsMaximum(groups: map<string, Group>, primary: string, inherited: seq<Group>)
    ensures GroupLimit(groups, primary, inherited) >= 0
    ensures primary in groups ==> Bounds(groups[primary].nodes, GroupLimit(groups, primary, inherited))
    ensures forall j :: 0 <= j < |inherited| ==> Bounds(inherited[j].nodes, GroupLimit(groups, primary, inherited))
    ensures var r := GroupLimit(groups, primary, inherited);
      || r == 0
      || (primary in groups && Advertises(groups[primary].nodes, r))
      || (exists j :: 0 <= j < |inherited| && Advertises(inherited[j].nodes, r))
  {
    var r := GroupLimit(groups, primary, inherited);
    if inherited == [] {
      if primary in groups {
        NodesLimitIsMaximum(groups[primary].nodes);
      }
    } else {
      var init := inherited[..|inherited| - 1];
      var last := inherited[|inherited| - 1];
      GroupLimitIsMaximum(groups, primary, init);
      NodesLimitIsMaximum(last.nodes);
      assert forall j :: 0 <= j < |init| ==> inherited[j] == init[j];
      if r != 0 && r == GroupLimit(groups, primary, init) && !(primary in groups && Advertises(groups[primary].nodes, r)) {
        var j :| 0 <= j < |init| && Advertises(init[j].nodes, r);
        assert inherited[j] == init[j];
      }
    }
  }

  /**
   * Worked cases: a group advertising `abc` and `3` has limit 3 (the
   * malformed suffix is skipped, as are false-valued and negative nodes); a
   * user of `vip` (3) has group limit 3, and 7 once `donor` (7) is inherited too.
   */
  lemma ResolverExamples()
    ensures NodesLimit([Node(Prefix + "abc", true, false), Node(Prefix + "3", true, false),
                        Node(Prefix + "9", false, false), Node(Prefix + "-4", true, false)]) == 3
    ensures var vip := Group("vip", [Node(Prefix + "3", true, false)]);
            var donor := Group("donor", [Node(Prefix + "7", true, false)]);
            && GroupLimit(map["vip" := vip, "donor" := donor], "vip", [vip]) == 3
            && GroupLimit(map["vip" := vip, "donor" := donor], "vip", [vip, donor]) == 7
  {
    var abc, three, off, minus := Node(Prefix + "abc", true, false), Node(Prefix + "3", true, false),
                                  Node(Prefix + "9", false, false), Node(Prefix + "-4", true, false);
    assert AdvertisedLimit(abc) == None by {
      assert abc.key[|Prefix|..] == "abc";
      assert !IsDigit('a');
    }
    assert AdvertisedLimit(three) == Some(3) by {
      assert three.key[|Prefix|..] == "3";
      assert DigitsValue("3") == 3 by { assert "3"[..0] == []; }
    }
    assert AdvertisedLimit(off) == None;
    assert AdvertisedLimit(minus) == Some(-4) by {
      assert minus.key[|Prefix|..] == "-4";
      assert ("-4")[1..] == "4";
      assert DigitsValue("4") == 4 by { assert "4"[..0] == []; }
    }
    var nodes := [abc, three, off, minus];
    assert nodes[..3] == [abc, three, off] && nodes[..3][..2] == [abc, three] && nodes[..3][..2][..1] == [abc];
    assert NodesLimit([abc]) == 0 by { assert [abc][..0] == []; }
    assert NodesLimit([abc, three]) == 3;
    assert NodesLimit([abc, three, off]) == 3;
    assert NodesLimit(nodes) == 3;

    var seven := Node(Prefix + "7", true, false);
    assert AdvertisedLimit(seven) == Some(7) by {
      assert seven.key[|Prefix|..] == "7";
      assert DigitsValue("7") == 7 by { assert "7"[..0] == []; }
    }
    var vip, donor := Group("vip", [three]), Group("donor", [seven]);
    var groups := map["vip" := vip, "donor" := donor];
    assert NodesLimit([three]) == 3 by { assert [three][..0] == []; }
    assert NodesLimit([seven]) == 7 by { assert [seven][..0] == []; }
    assert [vip, donor][..1] == [vip] && [vip][..0] == [];
    assert "vip" in groups && groups["vip"] == vip;
    assert PrimaryLimit(groups, "vip") == 3;
    assert GroupLimit(groups, "vip", []) == 3;
    assert GroupLimit(groups, "vip", [vip]) == 3;
    assert GroupLimit(groups, "vip", [vip, donor]) == 7;
  }

  // ---------------------------------------------------------------------------
  // Reconciler
  // ---------------------------------------------------------------------------

  /** A node set with every quota node taken out, whatever its value. */
  function WithoutQuotaNodes(nodes: set<Node>): (r: set<Node>)
    ensures forall n :: n in r <==> n in nodes && !IsQuotaKey(n.key)
  {
    set n | n in nodes && !IsQuotaKey(n.key)
  }

  /** A user's node set once its quota nodes are replaced by the single node for `total`. */
  function Reconciled(nodes: set<Node>, total: nat): (r: set<Node>)
    ensures forall n: Node :: n in r && IsQuotaKey(n.key) <==> n == QuotaNode(total)
    ensures forall n: Node :: !IsQuotaKey(n.key) ==> (n in r <==> n in nodes)
  {
    WithoutQuotaNodes(nodes) + {QuotaNode(total)}
  }

  /** Reconciling twice with the same total gives the node set of reconciling once. */
  lemma ReconcileIdempotent(nodes: set<Node>, total: nat)
    ensures Reconciled(Reconciled(nodes, total), total) == Reconciled(nodes, total)
  {
  }

  /** The bonus manager: the ledger it owns, and whether the permission service was found. */
  class BonusManager {
    var entries: Ledger
    const luckPermsPresent: bool

    ghost predicate Valid()
      reads this
    {
      Positive(entries)
    }

    constructor(stored: Ledger, luckPermsPresent: bool)
      requires Positive(stored)
      ensures Valid() && entries == stored && this.luckPermsPresent == luckPermsPresent
    {
      entries := stored;
      this.luckPermsPresent := luckPermsPresent;
    }

    /** `getBonusWarps`. */
    method GetBonusWarps(id: Uuid) returns (n: Int32)
      requires Valid()
      ensures n == Lookup(entries, id) && n >= 0
    {
      n := if id in entries then entries[id] else 0;
    }

    /** `setBonusWarps`: store a positive amount, delete the entry otherwise. */
    method SetBonusWarps(id: Uuid, amount: Int32)
      requires Valid()
      modifies this
      ensures Valid()
      ensures entries == Store(old(entries), id, amount)
    {
      if amount > 0 {
        entries := entries[id := amount];
      } else {
        entries := entries - {id};
      }
    }

    /** `addBonusWarp`: read the count, then store it plus one in Java `int` arithmetic. */
    method AddBonusWarp(id: Uuid)
      requires Valid()
      modifies this
      ensures Valid()
      ensures entries == Increment(old(entries), id)
      ensures Lookup(entries, id) == if old(Lookup(entries, id)) < IntMax then old(Lookup(entries, id)) + 1 else 0
    {
      var current := GetBonusWarps(id);
      var newAmount := Wrap32(current as int + 1);
      SetBonusWarps(id, newAmount);
    }

    /**
     * `getReadableBonusWarps`, ledger side: every entry filed under its
     * player's display name; entries whose players share a name overwrite one
     * another, so each name holds the count of one of them.
     */
    method GetReadableBonusWarps(nameOf: Uuid -> string) returns (result: map<string, Int32>)
      requires Valid()
      ensures result.Keys == set id | id in entries :: nameOf(id)
      ensures forall name :: name in result ==>
        exists id :: id in entries && nameOf(id) == name && result[name] == entries[id]
      ensures forall name :: name in result ==> result[name] > 0
    {
      result := map[];
      var pending := entries.Keys;
      while pending != {}
        invariant pending <= entries.Keys
        invariant result.Keys == set id | id in entries && id !in pending :: nameOf(id)
        invariant forall name :: name in result ==>
          exists id :: id in entries && nameOf(id) == name && result[name] == entries[id]
        decreases pending
      {
        var id :| id in pending;
        result := result[nameOf(id) := entries[id]];
        pending := pending - {id};
      }
    }

    /** `getGroupWarpLimit`: the primary group's limit, then each inherited group's, keeping the maximum. */
    method GroupWarpLimit(user: User, groups: map<string, Group>) returns (maxLimit: int)
      ensures maxLimit == GroupLimit(groups, user.primaryGroup, user.inheritedGroups)
    {
      maxLimit := 0;
      if user.primaryGroup in groups {
        var limit := WarpLimitFromNodes(groups[user.primaryGroup].nodes);
        maxLimit := Max(maxLimit, limit);
      }
      var inherited := user.inheritedGroups;
      for j := 0 to |inherited|
        invariant maxLimit == GroupLimit(groups, user.primaryGroup, inherited[..j])
      {
        assert inherited[..j + 1][..j] == inherited[..j];
        var limit := WarpLimitFromNodes(inherited[j].nodes);
        maxLimit := Max(maxLimit, limit);
      }
      assert inherited[..|inherited|] == inherited;
    }

    /** `removeOldWarpPermissions`: collect the user's quota nodes, then remove them one by one. */
    method RemoveOldWarpPermissions(user: User)
      modifies user
      ensures user.nodes == WithoutQuotaNodes(old(user.nodes))
    {
      var toRemove: set<Node> := {};
      var unseen := user.nodes;
      while unseen != {}
        invariant unseen <= user.nodes
        invariant toRemove == set n | n in user.nodes && n !in unseen && IsQuotaKey(n.key)
        decreases unseen
      {
        var node :| node in unseen;
        if IsQuotaKey(node.key) {
          toRemove := toRemove + {node};
        }
        unseen := unseen - {node};
      }
      var rest := toRemove;
      while rest != {}
        invariant rest <= toRemove
        invariant user.nodes == old(user.nodes) - (toRemove - rest)
        decreases rest
      {
        var node :| node in rest;
        user.nodes := user.nodes - {node};
        rest := rest - {node};
      }
    }

    /**
     * The body of `updatePlayerPermissions`. `user` is what the permission
     * store returns for the player (`null` when it cannot produce one). On
     * success the result is the total written.
     */
    method UpdatePlayerPermissions(playerId: Uuid, user: User?, groups: map<string, Group>)
      returns (total: Option<nat>)
      requires Valid()
      modifies user
      ensures total.Some? <==> luckPermsPresent && user != null
      ensures user != null && total.None? ==> user.nodes == old(user.nodes)
      ensures user != null && total.Some? ==>
        && total.value == GroupLimit(groups, user.primaryGroup, user.inheritedGroups) + Lookup(entries, playerId)
        && user.nodes == Reconciled(old(user.nodes), total.value)
    {
      if !luckPermsPresent || user == null {
        return None;
      }
      var groupLimit := GroupWarpLimit(user, groups);
      GroupLimitIsMaximum(groups, user.primaryGroup, user.inheritedGroups);
      var bonus := GetBonusWarps(playerId);
      var totalWarps := groupLimit + bonus;
      RemoveOldWarpPermissions(user);
      user.nodes := user.nodes + {QuotaNode(totalWarps)};
      total := Some(totalWarps);
    }
  }
  /**
   * A user of `vip` (limit 3) with 2 bonus warps who already carries a stale
   * `axplayerwarps.warps.99` node ends up with the single node for 5: the
   * stale node is neither read nor kept.
   */
  method ReconcileExample(id: Uuid)
  {
    var vip := Group("vip", [Node(Prefix + "3", true, false)]);
    var donor := Group("donor", [Node(Prefix + "7", true, false)]);
    var stale := Node(Prefix + "99", true, false);
    var other := Node("essentials.home", true, false);
    var user := new User(id, Some("Steve"), "vip", [vip], {stale, other});
    var manager := new BonusManager(map[id := 2], true);
    ResolverExamples();
    var total := manager.UpdatePlayerPermissions(id, user, map["vip" := vip, "donor" := donor]);
    assert total == Some(5);
    assert IsQuotaKey(stale.key) && !IsQuotaKey(other.key) by {
      assert stale.key[..|Prefix|] == Prefix;
      assert |other.key| < |Prefix|;
    }
    assert stale !in user.nodes;
    assert user.nodes == {other, QuotaNode(5)};
  }
}
