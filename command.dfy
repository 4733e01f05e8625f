/**
 * The `/warpbonus` administrative command: subcommand dispatch, amount
 * validation feeding the bonus ledger, and tab completion.
 */
module Command {
  import opened Wrappers
  import opened Text
  import opened Quota
  import opened Manager

  /** The subcommands whose arity is checked. */
  datatype Sub = AddSub | SetSub | CheckSub

  /** What `onCommand` decides to do with its arguments. */
  datatype Request =
    | Denied                                          // sender lacks `warps.bonus.manage`
    | GeneralUsage                                    // no arguments, or an unknown subcommand
    | SubUsage(sub: Sub)                              // a known subcommand with too few arguments
    | AddCmd(player: string, amount: Option<string>)
    | SetCmd(player: string, value: string)
    | CheckCmd(player: string)
    | ListCmd

  /** The case-insensitive switch of `onCommand` with its arity checks. */
  function Dispatch(hasPermission: bool, args: seq<string>): (r: Request)
    ensures r.Denied? <==> !hasPermission
    ensures r.GeneralUsage? <==>
      hasPermission && (|args| == 0 || ToLower(args[0]) !in ["add", "set", "check", "list"])
    ensures r.SubUsage? <==>
      (hasPermission && |args| > 0 &&
       ((ToLower(args[0]) in ["add", "check"] && |args| < 2) || (ToLower(args[0]) == "set" && |args| < 3)))
    ensures r.SubUsage? ==>
      r.sub == (if ToLower(args[0]) == "add" then AddSub else if ToLower(args[0]) == "set" then SetSub else CheckSub)
    ensures r.AddCmd? <==> hasPermission && |args| >= 2 && ToLower(args[0]) == "add"
    ensures r.AddCmd? ==> r.player == args[1] && r.amount == (if |args| >= 3 then Some(args[2]) else None)
    ensures r.SetCmd? <==> hasPermission && |args| >= 3 && ToLower(args[0]) == "set"
    ensures r.SetCmd? ==> r.player == args[1] && r.value == args[2]
    ensures r.CheckCmd? <==> hasPermission && |args| >= 2 && ToLower(args[0]) == "check"
    ensures r.CheckCmd? ==> r.player == args[1]
    ensures r.ListCmd? <==> hasPermission && |args| >= 1 && ToLower(args[0]) == "list"
  {
    if !hasPermission then Denied
    else if |args| == 0 then GeneralUsage
    else
      var sub := ToLower(args[0]);
      if sub == "add" then
        if |args| < 2 then SubUsage(AddSub) else AddCmd(args[1], if |args| >= 3 then Some(args[2]) else None)
      else if sub == "set" then
        if |args| < 3 then SubUsage(SetSub) else SetCmd(args[1], args[2])
      else if sub == "check" then
        if |args| < 2 then SubUsage(CheckSub) else CheckCmd(args[1])
      else if sub == "list" then ListCmd
      else GeneralUsage
  }

  /** Why an amount argument was refused. */
  datatype AmountError = NotANumber | NotPositive | Negative

  /** The amount check of `add <player> <amount>`: a Java `int` greater than zero. */
  function AddAmount(s: string): (r: Result<Int32, AmountError>)
    ensures r.Ok? <==> ParseInt(s).Some? && ParseInt(s).value > 0
    ensures r.Ok? ==> r.value > 0 && ParseInt(s) == Some(r.value)
    ensures r == Err(NotANumber) <==> ParseInt(s).None?
  {
    match ParseInt(s)
    case None => Err(NotANumber)
    case Some(amount) => if amount <= 0 then Err(NotPositive) else Ok(amount)
  }

  /** The amount check of `set <player> <amount>`: a Java `int` that is not negative. */
  function SetAmount(s: string): (r: Result<Int32, AmountError>)
    ensures r.Ok? <==> ParseInt(s).Some? && ParseInt(s).value >= 0
    ensures r.Ok? ==> r.value >= 0 && ParseInt(s) == Some(r.value)
    ensures r == Err(NotANumber) <==> ParseInt(s).None?
  {
    match ParseInt(s)
    case None => Err(NotANumber)
    case Some(amount) => if amount < 0 then Err(Negative) else Ok(amount)
  }

  /**
   * The ledger after a request, with `uuidOf` resolving player names. Only a
   * well-formed `add` or `set` changes it, and then only the named player's
   * entry: `add` raises it by the amount (by one without an amount) in Java
   * `int` arithmetic, so a sum past 2147483647 wraps negative and deletes the
   * entry; `set` replaces it (deleting it for 0); a refused amount changes
   * nothing.
   */
  function CommandEffect(m: Ledger, req: Request, uuidOf: string -> Uuid): (r: Ledger)
    requires Positive(m)
    ensures Positive(r)
    ensures !(req.AddCmd? || req.SetCmd?) ==> r == m
    ensures req.AddCmd? || req.SetCmd? ==>
      forall other :: other != uuidOf(req.player) ==> Lookup(r, other) == Lookup(m, other)
    ensures req.AddCmd? && req.amount.None? ==>
      Lookup(r, uuidOf(req.player)) ==
        if Lookup(m, uuidOf(req.player)) < IntMax then Lookup(m, uuidOf(req.player)) + 1 else 0
    ensures req.AddCmd? && req.amount.Some? ==>
      (match AddAmount(req.amount.value)
       case Ok(n) =>
         if Lookup(m, uuidOf(req.player)) + n <= IntMax
         then Lookup(r, uuidOf(req.player)) == Lookup(m, uuidOf(req.player)) + n
         else uuidOf(req.player) !in r
       case Err(_) => r == m)
    ensures req.SetCmd? ==>
      (match SetAmount(req.value)
       case Ok(n) => Lookup(r, uuidOf(req.player)) == n && (n == 0 ==> uuidOf(req.player) !in r)
       case Err(_) => r == m)
  {
    match req
    case AddCmd(player, None) => Increment(m, uuidOf(player))
    case AddCmd(player, Some(s)) =>
      (match AddAmount(s)
       case Ok(n) => Store(m, uuidOf(player), Wrap32(Lookup(m, uuidOf(player)) as int + n))
       case Err(_) => m)
    case SetCmd(player, s) =>
      (match SetAmount(s)
       case Ok(n) => Store(m, uuidOf(player), n)
       case Err(_) => m)
    case _ => m
  }

  /** What the sender is told, stripped of wording and colours. */
  datatype Reply =
    | NoPermission
    | Usage
    | SubcommandUsage(sub: Sub)
    | BadAmount(error: AmountError)
    | Added(id: Uuid, amount: int, total: int)
    | SetTo(id: Uuid, amount: int)
    | Bonus(id: Uuid, amount: int)
    | Listing(entries: map<string, int>)

  /**
   * `onCommand` together with the handlers it starts. `uuidOf` stands for
   * `getUUIDFromName` and `nameOf` for `getPlayerName`. It always reports the
   * command as handled.
   */
  method OnCommand(manager: BonusManager, hasPermission: bool, args: seq<string>,
                   uuidOf: string -> Uuid, nameOf: Uuid -> string)
    returns (handled: bool, reply: Reply)
    requires manager.Valid()
    modifies manager
    ensures handled
    ensures manager.Valid()
    ensures manager.entries == CommandEffect(old(manager.entries), Dispatch(hasPermission, args), uuidOf)
    ensures !hasPermission ==> reply == NoPermission
  {
    handled := true;
    match Dispatch(hasPermission, args)
    case Denied =>
      reply := NoPermission;
    case GeneralUsage =>
      reply := Usage;
    case SubUsage(sub) =>
      reply := SubcommandUsage(sub);
    case AddCmd(player, amountArg) =>
      var id := uuidOf(player);
      if amountArg.Some? {
        match AddAmount(amountArg.value) {
          case Err(e) =>
            reply := BadAmount(e);
          case Ok(amount) =>
            var current := manager.GetBonusWarps(id);
            var newBonus := Wrap32(current as int + amount);
            manager.SetBonusWarps(id, newBonus);
            reply := Added(id, amount, newBonus);
        }
      } else {
        manager.AddBonusWarp(id);
        var newBonus := manager.GetBonusWarps(id);
        reply := Added(id, 1, newBonus);
      }
    case SetCmd(player, amountArg) =>
      var id := uuidOf(player);
      match SetAmount(amountArg) {
        case Err(e) =>
          reply := BadAmount(e);
        case Ok(amount) =>
          manager.SetBonusWarps(id, amount);
          reply := SetTo(id, amount);
      }
    case CheckCmd(player) =>
      var id := uuidOf(player);
      var bonus := manager.GetBonusWarps(id);
      reply := Bonus(id, bonus);
    case ListCmd =>
      var listing := manager.GetReadableBonusWarps(nameOf);
      reply := Listing(listing);
  }

  // ---------------------------------------------------------------------------
  // Tab completion
  // ---------------------------------------------------------------------------

  /** The online names, in order, whose lower-case form starts with `partial`. */
  function NameCompletions(online: seq<string>, partial: string): seq<string> {
    if online == [] then []
    else
      var last := online[|online| - 1];
      NameCompletions(online[..|online| - 1], partial)
      + (if StartsWith(ToLower(last), partial) then [last] else [])
  }

  /** A name is offered exactly when it is online and matches the partial name; nothing else is offered. */
  lemma {:induction false} NameCompletionsExact(online: seq<string>, partial: string)
    ensures |NameCompletions(online, partial)| <= |online|
    ensures forall c :: c in NameCompletions(online, partial) <==> c in online && StartsWith(ToLower(c), partial)
  {
    if online != [] {
      var init := online[..|online| - 1];
      NameCompletionsExact(init, partial);
      assert online == init + [online[|online| - 1]];
    }
  }

  /** `onTabComplete`, with the names of the online players in their iteration order. */
  method OnTabComplete(args: seq<string>, onlineNames: seq<string>) returns (completions: seq<string>)
    ensures |args| == 1 ==> completions == ["add", "set", "check", "list"]
    ensures |args| == 2 && !EqualsIgnoreCase(args[0], "list") ==>
      completions == NameCompletions(onlineNames, ToLower(args[1]))
    ensures |args| == 3 && EqualsIgnoreCase(args[0], "add") ==> completions == ["1", "5", "10"]
    ensures (!(|args| == 1 || (|args| == 2 && !EqualsIgnoreCase(args[0], "list"))
               || (|args| == 3 && EqualsIgnoreCase(args[0], "add")))) ==> completions == []
  {
    completions := [];
    if |args| == 1 {
      completions := completions + ["add", "set", "check", "list"];
    } else if |args| == 2 && !EqualsIgnoreCase(args[0], "list") {
      var partialName := ToLower(args[1]);
      for i := 0 to |onlineNames|
        invariant completions == NameCompletions(onlineNames[..i], partialName)
      {
        var name := onlineNames[i];
        assert onlineNames[..i + 1][..i] == onlineNames[..i];
        if StartsWith(ToLower(name), partialName) {
          completions := completions + [name];
        }
      }
      assert onlineNames[..|onlineNames|] == onlineNames;
    } else if |args| == 3 && EqualsIgnoreCase(args[0], "add") {
      completions := completions + ["1"];
      completions := completions + ["5"];
      completions := completions + ["10"];
    }
  }
}
