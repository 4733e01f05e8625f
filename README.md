# WarpBonus warp-quota engine, in Dafny

This project models the core of the WarpBonus server plugin. The plugin gives
each player a number of player warps and expresses it as a single permission
node, `axplayerwarps.warps.<N>`, on the player's permission-store user. `N` is
the sum of two values:

* the **group limit**: the largest `axplayerwarps.warps.<n>` (value true) found
  on the player's primary group or on any group the player inherits from. The
  player's own nodes are never read, so the plugin's own writes cannot feed back
  into the next computation;
* the **bonus**: a per-player count kept in the plugin's bonus ledger.

The model covers:

* the bonus ledger (`getBonusWarps`, `setBonusWarps`, `addBonusWarp`,
  `getReadableBonusWarps`), as a map field of the `BonusManager` class;
* the resolver (`getWarpLimitFromNodes`, `getGroupWarpLimit`), as loops proved
  against running-maximum functions, with lemmas saying that the result is the
  maximum advertised limit;
* the reconciler (`removeOldWarpPermissions` and the body of
  `updatePlayerPermissions`). It rewrites the user's node set in place, leaving
  exactly one quota node, and it is idempotent;
* the change listener: how each permission event is routed, the fan-out to a
  group's loaded members, the username guard, and the teardown of
  subscriptions. It includes the loop-breaking rule: quota-node changes on
  users trigger nothing;
* the `/warpbonus` command: case-insensitive dispatch with arity checks,
  amount validation feeding the ledger, and tab completion.

Files:

* `wrappers.dfy`: Option and Result.
* `text.dfy`: Java's `startsWith`, `toLowerCase`, `Integer.parseInt` and
  decimal rendering.
* `quota.dfy`: ids, nodes, groups, users, the quota prefix.
* `manager.dfy`: `WarpBonusManager.java`.
* `listener.dfy`: `GroupChangeListener.java`.
* `command.dfy`: `WarpBonusCommand.java`.

Facts about the code that the model keeps:

* There is no per-user debounce or coalescing. Each event schedules its own
  delayed task.
* `setBonusWarps` accepts any `int` and deletes the entry for values of 0 or
  less; only the `set` command rejects negative amounts.
* `setBonusWarps` does not itself start a reconciliation.
* Bonus counts and the sums `current + 1` and `current + amount` are Java
  `int`s. A sum past 2147483647 wraps to a negative number, which
  `setBonusWarps` stores as a deletion.
* The command file calls `setBonusWarps(id, name, n)` and
  `addBonusWarp(id, name)`, which the manager does not define. The model uses
  the manager's `setBonusWarps(id, n)` and `addBonusWarp(id)` and ignores the
  name.

## Model

| member | source | states |
|---|---|---|
| `Manager.Lookup` | src/main/java/com/flyaway/warpbonus/WarpBonusManager.java:61-64 | A ledger read gives the stored count, or 0 when the player has no entry; on a positive ledger the result is never negative |
| `Manager.Store` | src/main/java/com/flyaway/warpbonus/WarpBonusManager.java:66-74 | Storing a positive amount makes later reads return it; storing 0 or less deletes the key, so reads return 0; every other player's entry is unchanged; a positive ledger stays positive |
| `Manager.IncrementTimesCounts` | src/main/java/com/flyaway/warpbonus/WarpBonusManager.java:76-79 | `k` automatic grants that stay within `int` range raise the count by exactly `k`; from an absent entry they leave exactly `k`; the ledger stays positive |
| `Manager.IncrementAtIntMaxDeletes` | src/main/java/com/flyaway/warpbonus/WarpBonusManager.java:76-79 | A grant to a count of 2147483647 wraps to a negative sum, so the entry is deleted and reads give 0 |
| `Manager.BonusManager.constructor` | src/main/java/com/flyaway/warpbonus/WarpBonusManager.java:28-42 | The manager starts from a positive ledger and records whether the permission service was found |
| `Manager.BonusManager.GetBonusWarps` | src/main/java/com/flyaway/warpbonus/WarpBonusManager.java:61-64 | Returns the ledger's count for the player (0 without an entry), never negative |
| `Manager.BonusManager.SetBonusWarps` | src/main/java/com/flyaway/warpbonus/WarpBonusManager.java:66-74 | The ledger becomes `Store(old ledger, id, amount)` and stays positive |
| `Manager.BonusManager.AddBonusWarp` | src/main/java/com/flyaway/warpbonus/WarpBonusManager.java:76-81 | The ledger becomes `Increment(old ledger, id)`: the count becomes one more than before, or 0 (entry deleted) when it was 2147483647; the ledger stays positive |
| `Manager.BonusManager.GetReadableBonusWarps` | src/main/java/com/flyaway/warpbonus/WarpBonusManager.java:187-197 | The result's names are exactly the display names of the ledger's players. Each name maps to the (positive) count of some player with that name, so players who share a name overwrite one another |
| `Manager.NodesLimitIsMaximum` | src/main/java/com/flyaway/warpbonus/WarpBonusManager.java:143-155 | A node list's limit is at least 0 and at least every advertised suffix. It is 0 or one of the advertised suffixes: false-valued, unprefixed and unparsable nodes are skipped |
| `Manager.WarpLimitFromNodes` | src/main/java/com/flyaway/warpbonus/WarpBonusManager.java:143-155 | The loop's result is the running maximum of the parsable quota suffixes, starting from 0 |
| `Manager.GroupLimitIsMaximum` | src/main/java/com/flyaway/warpbonus/WarpBonusManager.java:125-141 | The group limit is at least 0 and at least every limit advertised on the primary group (when it exists) or on any inherited group. It is 0 or one of those limits |
| `Manager.BonusManager.GroupWarpLimit` | src/main/java/com/flyaway/warpbonus/WarpBonusManager.java:125-141 | Returns the group limit of the user's primary group and inherited groups. The user's own nodes take no part |
| `Manager.ResolverExamples` | src/main/java/com/flyaway/warpbonus/WarpBonusManager.java:143-155 | `abc`, false-valued and negative suffixes are skipped (limit 3); a user of `vip` (3) who also inherits `donor` (7) has group limit 7 |
| `Manager.Reconciled` | src/main/java/com/flyaway/warpbonus/WarpBonusManager.java:94-101 | After reconciliation the only quota node is the true-valued node for the total; every non-quota node is present exactly when it was before |
| `Manager.ReconcileIdempotent` | src/main/java/com/flyaway/warpbonus/WarpBonusManager.java:94-101 | Reconciling twice with the same total leaves the same node set as reconciling once |
| `Manager.BonusManager.RemoveOldWarpPermissions` | src/main/java/com/flyaway/warpbonus/WarpBonusManager.java:157-167 | The user's nodes become the old nodes minus every quota-prefixed node, whatever its value |
| `Manager.BonusManager.UpdatePlayerPermissions` | src/main/java/com/flyaway/warpbonus/WarpBonusManager.java:83-101 | Nothing changes without the permission service or when no user can be obtained. Otherwise total = group limit + ledger bonus, and the user's nodes become `Reconciled(old nodes, total)` |
| `Quota.AdvertisedLimit` | src/main/java/com/flyaway/warpbonus/WarpBonusManager.java:146-151 | A node contributes a limit exactly when it is true-valued, carries the prefix and its suffix parses as a Java `int`, and then it contributes that value |
| `Quota.QuotaNode` | src/main/java/com/flyaway/warpbonus/WarpBonusManager.java:100-101 | The written node carries the prefix, is true-valued and is not an inheritance node |
| `Quota.QuotaNodeReadsBack` | src/main/java/com/flyaway/warpbonus/WarpBonusManager.java:100 | The key written for a total in `int` range parses back, as the resolver reads keys, to exactly that total |
| `Text.ParseDecimal` | src/main/java/com/flyaway/warpbonus/WarpBonusManager.java:149 | `parseInt` of the decimal rendering of a non-negative `int` gives the number back |
| `Listener.Route` | src/main/java/com/flyaway/warpbonus/GroupChangeListener.java:58-90 | Promote and demote always schedule the event's user. A node add or remove acts exactly for an inheritance node on a user (schedule that user) or a quota node on a group (fan out to that group). A non-inheritance node on a user triggers nothing. Only a join reconciles directly. At most one action per event |
| `Listener.GuardedUpdate` | src/main/java/com/flyaway/warpbonus/GroupChangeListener.java:137-146 | A scheduled update reaches the reconciler exactly when the user has a non-empty name, carrying the user's id and name |
| `Listener.ReconcilerWritesAreSilent` | src/main/java/com/flyaway/warpbonus/GroupChangeListener.java:66-90 | The removal of every quota node the reconciler finds on a user (even one equal to the node it then writes) and the addition of `QuotaNode(total)` each route to no action, so reconciliation cannot trigger itself |
| `Listener.FanOutSelectsMembers` | src/main/java/com/flyaway/warpbonus/GroupChangeListener.java:99-115 | The fan-out schedules every loaded member of the group (primary or inherited) that has a non-empty name. It schedules nothing else, and never more updates than there are loaded users |
| `Listener.UpdateAllUsersInGroup` | src/main/java/com/flyaway/warpbonus/GroupChangeListener.java:92-125 | Without the permission service nothing is scheduled. Otherwise the scheduled updates are the fan-out targets, in order, and `updatedCount` equals their number |
| `Listener.Subscription.Close` | src/main/java/com/flyaway/warpbonus/GroupChangeListener.java:50-52 | A close either succeeds and deactivates the subscription, or fails and leaves it as it was |
| `Listener.GroupChangeListener.constructor` | src/main/java/com/flyaway/warpbonus/GroupChangeListener.java:30-46 | Four fresh, active subscriptions when the permission service is there, none otherwise |
| `Listener.GroupChangeListener.Disable` | src/main/java/com/flyaway/warpbonus/GroupChangeListener.java:48-56 | Every subscription is tried and is closed unless its close fails; the list ends empty |
| `Command.Dispatch` | src/main/java/com/flyaway/warpbonus/WarpBonusCommand.java:21-69 | Without permission the request is denied. The subcommand is matched case-insensitively. `add` and `check` need 2 arguments and `set` needs 3, otherwise only that subcommand's usage is shown, naming that subcommand. No argument or an unknown subcommand shows the general usage |
| `Command.AddAmount` | src/main/java/com/flyaway/warpbonus/WarpBonusCommand.java:89-96 | An `add` amount is accepted exactly when it parses as a Java `int` above 0; anything unparsable is reported as not a number |
| `Command.SetAmount` | src/main/java/com/flyaway/warpbonus/WarpBonusCommand.java:137-142 | A `set` amount is accepted exactly when it parses as a Java `int` of 0 or more; anything unparsable is reported as not a number |
| `Command.CommandEffect` | src/main/java/com/flyaway/warpbonus/WarpBonusCommand.java:89-153 | Only `add` and `set` change the ledger, and only the named player's entry. `add` raises it by the accepted amount (by 1 without one), and a sum past 2147483647 wraps negative and deletes the entry; `set` makes it the amount, deleting it for 0; a refused amount changes nothing; the ledger stays positive |
| `Command.OnCommand` | src/main/java/com/flyaway/warpbonus/WarpBonusCommand.java:21-69 | Always returns true. The ledger becomes `CommandEffect` of the dispatched request, so a sender without permission changes nothing |
| `Command.NameCompletionsExact` | src/main/java/com/flyaway/warpbonus/WarpBonusCommand.java:206-213 | A name is offered exactly when it is online and its lower-case form starts with the lower-cased partial name |
| `Command.OnTabComplete` | src/main/java/com/flyaway/warpbonus/WarpBonusCommand.java:200-222 | 1 argument: `add, set, check, list`. 2 arguments with a subcommand other than `list`: the matching online names in order. 3 arguments under `add`: `1, 5, 10`. Otherwise nothing |

## Left out

- Persistence of the ledger (`loadData`, `saveData`, the file creation in the constructor, the reload before every read): the ledger is an in-memory map. A file edited by hand to hold zero, negative or non-numeric counts is outside the model; the constructor requires a positive ledger.
- Calls into the permission service and the server (`saveUser`, `loadUser().join()`, `cleanupUser` in `updateOnlinePlayer`, the service lookup, event-bus registration, `getLoadedUsers`, the online-player list) are foreign code. Their results are parameters: a user that may be null, a group map, a sequence of loaded users and a sequence of online names.
- Asynchronous and delayed scheduling in the listener and the manager (`runTask`, `runTaskLater(..., 20L)`, the fan-out) is modelled only as the action or update that would be scheduled. Interleavings of concurrent handlers and reconciliations are not modelled.
- OnCommand: the `add`, `set` and `check` handlers run inside `runTaskAsynchronously`, so in the source `onCommand` returns before the ledger changes and a following synchronous `list` may still see the old ledger. The model runs these handlers inline: the ledger has changed when `OnCommand` returns.
- `getUUIDFromName` and `getPlayerName` are function parameters (`uuidOf`, `nameOf`). `getUUIDFromName` never returns null, so the "player not found" branches of the command handlers are not modelled.
- All chat messages, colour codes and logging. Replies are abstract values.
- `WarpBonusPlugin.java` (lifecycle wiring and the singleton accessor) is not part of this model.
- BonusManager.UpdatePlayerPermissions: the total `groupLimit + bonus` is an unbounded integer. Java `int` wrap-around above 2147483647 is not modelled.
- Dispatch: case-insensitive matching maps only ASCII letters. Java's locale-dependent `toLowerCase` and the Unicode folding of `equalsIgnoreCase` are not modelled. The same holds for `OnTabComplete` and `NameCompletionsExact`.
- ParseInt accepts only ASCII digits. Java's `Integer.parseInt` also accepts other Unicode decimal digits.
- Node types come from the permission service. A node carries an `isInheritance` flag, and `ReconcilerWritesAreSilent` requires that no quota-prefixed user node is an inheritance node. The permission service never types such a key as one.
- Exceptions from the foreign calls, caught and logged in `updatePlayerPermissions` and `updateAllUsersInGroup`, are not modelled. Once a user has been obtained, the modelled reconciliation always completes.
- GroupChangeListener.constructor: a `subscribe` that throws inside `registerLuckPermsEvents` is caught and logged there, leaving fewer than four subscriptions. That path is not modelled, and the constructor promises exactly four when the permission service is present.
- A subscription whose `close` throws is modelled by a fixed per-subscription flag.
- A user's identity, name, primary group and inherited groups are a fixed snapshot during one reconciliation. Only the user's own node set changes.
