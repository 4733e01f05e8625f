/**
 * The permission-store entities the quota engine reads and writes, reduced to
 * what it looks at: player ids, nodes, groups and users, plus the reserved
 * quota-node prefix and the value a quota node advertises.
 */
module Quota {
  import opened Wrappers
  import opened Text

  /** A `java.util.UUID`: 128 bits, stable across renames. */
  datatype Uuid = Uuid(mostSigBits: bv64, leastSigBits: bv64)

  /** A permission node: its key, its boolean value, and whether its type is INHERITANCE. */
  datatype Node = Node(key: string, value: bool, isInheritance: bool)

  /** A group as the group manager hands it out: a name and its own nodes, in iteration order. */
  datatype Group = Group(name: string, nodes: seq<Node>)

  /** The reserved prefix of every quota node. */
  const Prefix: string := "axplayerwarps.warps."

  predicate IsQuotaKey(key: string) {
    StartsWith(key, Prefix)
  }

  /**
   * The limit a node contributes when it sits on a group: only a true-valued
   * node under the prefix whose suffix parses as a Java `int` contributes,
   * and then it contributes exactly that number.
   */
  function AdvertisedLimit(n: Node): (r: Option<int>)
    ensures r.Some? <==> n.value && IsQuotaKey(n.key) && ParseInt(n.key[|Prefix|..]).Some?
    ensures r.Some? ==> r == ParseInt(n.key[|Prefix|..])
  {
    if IsQuotaKey(n.key) && n.value then ParseInt(n.key[|Prefix|..]) else None
  }

  /** The single node the reconciler writes for a total of `total` warps. */
  function QuotaNode(total: nat): (n: Node)
    ensures IsQuotaKey(n.key) && n.value && !n.isInheritance
  {
    Node(Prefix + Decimal(total), true, false)
  }

  /** A quota node, read back as if it sat on a group, advertises exactly the total it was written for. */
  lemma QuotaNodeReadsBack(total: nat)
    requires total <= IntMax
    ensures AdvertisedLimit(QuotaNode(total)) == Some(total)
  {
    var key := QuotaNode(total).key;
    assert key[|Prefix|..] == Decimal(total);
    ParseDecimal(total);
  }

  /**
   * A loaded user. The identity, name, primary group and inherited groups are
   * fixed for the duration of a reconciliation; only the user's own node set
   * is changed, in place.
   */
  class User {
    const uniqueId: Uuid
    /** `None` when the permission store does not know the user's name. */
    const username: Option<string>
    const primaryGroup: string
    /** The groups the user inherits from, resolved transitively by the permission store. */
    const inheritedGroups: seq<Group>
    var nodes: set<Node>

    constructor(uniqueId: Uuid, username: Option<string>, primaryGroup: string,
                inheritedGroups: seq<Group>, nodes: set<Node>)
      ensures this.uniqueId == uniqueId && this.username == username
      ensures this.primaryGroup == primaryGroup && this.inheritedGroups == inheritedGroups
      ensures this.nodes == nodes
    {
      this.uniqueId := uniqueId;
      this.username := username;
      this.primaryGroup := primaryGroup;
      this.inheritedGroups := inheritedGroups;
      this.nodes := nodes;
    }
  }
}
