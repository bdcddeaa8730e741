/**
 The whole game as a state machine: any number of players and trees, any interleaving of activations,
 chops, crafts, withdrawals and renewals. What holds of every run.
*/
module Forest {
  import opened Common
  import opened PlayerRules
  import opened CraftCovenant
  import opened ChopCovenant
  import opened Transactions

  const RESERVE_PER_TREE := 50_000

  /** One player's lineage, with the LOG it began with and what has left it for good. */
  datatype Account = Account(player: Player, brought: nat, withdrawn: nat, burned: Inventory)

  /** `outside` is the LOG withdrawn and not brought into a new player's state since. */
  datatype World = World(trees: seq<Tree>, accounts: seq<Account>, outside: nat)

  datatype Action =
    | Activate(luck: Luck, brought: nat)
    | Chop(player: nat, tree: nat)
    | Craft(player: nat)
    | Withdraw(player: nat, amount: nat)
    | RenewPlayer(player: nat)
    | Maintain(tree: nat)
    | Regrow(tree: nat)

  datatype Rejection =
    | Unknown
    | NotOutside
    | AxeNotEarned
    | ChopRejected(chop: ChopError)
    | CannotCraft
    | WithdrawRejected(withdraw: WithdrawError)
    | NotAFundedStump

  const EMPTY := Inventory(0, 0, 0, 0)
  const FULL := Inventory(RESERVE_PER_TREE, RESERVE_PER_TREE, RESERVE_PER_TREE, RESERVE_PER_TREE)

  function Deployed(trees: nat): World { World(seq(trees, _ => Tree(LOGS_PER_TREE, FULL)), [], 0) }

  // ----- one step -----

  /** The axe-progression gate of the chop covenant. */
  predicate AxeEarned(p: Player) { p.held.xp >= RequiredXp(p.state.axe) }

  function Crafting(p: Player): (Player, Inventory)
    requires CanCraft(p.state, p.held)
  {
    var recipe := p.state.axe.NextRecipe().value;
    (Player(PlayerState(p.state.luck, recipe.axe),
            Inventory(p.held.log - recipe.logCost, p.held.xp, p.held.stone - recipe.stoneCost,
                      p.held.ironOre - recipe.ironOreCost)),
     Inventory(recipe.logCost, 0, recipe.stoneCost, recipe.ironOreCost))
  }

  predicate FundedStump(t: Tree) { t.health == 0 && t.reserve.log > 0 }

  predicate Known(w: World, a: Action) {
    match a
    case Activate(_, _) => true
    case Chop(p, t) => p < |w.accounts| && t < |w.trees|
    case Craft(p) => p < |w.accounts|
    case Withdraw(p, _) => p < |w.accounts|
    case RenewPlayer(p) => p < |w.accounts|
    case Maintain(t) => t < |w.trees|
    case Regrow(t) => t < |w.trees|
  }

  function SetAccount(w: World, p: nat, a: Account): World
    requires p < |w.accounts|
  {
    w.(accounts := w.accounts[p := a])
  }

  function SetTree(w: World, i: nat, t: Tree): World
    requires i < |w.trees|
  {
    w.(trees := w.trees[i := t])
  }

  /**
   A new player may start with any luck: the covenants do not see how its state came to be. The state may be created
   with LOG, the liquid asset; nothing else ever leaves the game.
  */
  function Newcomer(luck: Luck, brought: nat): Account {
    Account(Player(PlayerState(luck, NoAxe), EMPTY.(log := brought)), brought, 0, EMPTY)
  }

  function AfterCraft(a: Account): Account
    requires CanCraft(a.player.state, a.player.held)
  {
    var (player, cost) := Crafting(a.player);
    a.(player := player, burned := Plus(a.burned, cost))
  }

  function AfterWithdraw(a: Account, amount: nat): Account
    requires amount <= a.player.held.log
  {
    var held := a.player.held;
    a.(player := a.player.(held := held.(log := held.log - amount)), withdrawn := a.withdrawn + amount)
  }

  function Perform(sha: Sha, w: World, a: Action): Result<World, Rejection> {
    if !Known(w, a) then Err(Unknown)
    else
      match a
      case Activate(luck, brought) =>
        if brought > w.outside then Err(NotOutside)
        else Ok(World(w.trees, w.accounts + [Newcomer(luck, brought)], w.outside - brought))
      case Chop(p, t) =>
        var account := w.accounts[p];
        if !AxeEarned(account.player) then Err(AxeNotEarned)
        else (match PrepareChop(sha, account.player, w.trees[t])
              case Err(e) => Err(ChopRejected(e))
              case Ok(r) => Ok(SetTree(SetAccount(w, p, account.(player := r.player)), t, r.tree)))
      case Craft(p) =>
        var account := w.accounts[p];
        if CanCraft(account.player.state, account.player.held) then Ok(SetAccount(w, p, AfterCraft(account)))
        else Err(CannotCraft)
      case Withdraw(p, amount) =>
        var account := w.accounts[p];
        if amount == 0 then Err(WithdrawRejected(ZeroAmount))
        else if amount > account.player.held.log then Err(WithdrawRejected(ExceedsBalance))
        else Ok(SetAccount(w.(outside := w.outside + amount), p, AfterWithdraw(account, amount)))
      case RenewPlayer(_) => Ok(w)
      case Maintain(_) => Ok(w)
      case Regrow(t) =>
        if FundedStump(w.trees[t]) then Ok(SetTree(w, t, w.trees[t].(health := LOGS_PER_TREE)))
        else Err(NotAFundedStump)
  }

  /** A run: rejected actions change nothing. */
  function Run(sha: Sha, w: World, actions: seq<Action>): World
    decreases |actions|
  {
    if actions == [] then w else Run(sha, Next(sha, w, actions[0]), actions[1..])
  }

  function Next(sha: Sha, w: World, a: Action): World {
    match Perform(sha, w, a) case Ok(next) => next case Err(_) => w
  }

  lemma OneAction(sha: Sha, w: World, a: Action)
    ensures Run(sha, w, [a]) == Next(sha, w, a)
  {
    assert [a][1..] == [];
  }

  // ----- totals -----

  function Plus(a: Inventory, b: Inventory): Inventory {
    Inventory(a.log + b.log, a.xp + b.xp, a.stone + b.stone, a.ironOre + b.ironOre)
  }

  /** What one player's lineage holds or has burned. */
  function Kept(a: Account): Inventory { Plus(a.player.held, a.burned) }

  function InTrees(trees: seq<Tree>): Inventory {
    if trees == [] then EMPTY else Plus(trees[0].reserve, InTrees(trees[1..]))
  }

  function InAccounts(accounts: seq<Account>): Inventory {
    if accounts == [] then EMPTY
    else
      var last := |accounts| - 1;
      Plus(InAccounts(accounts[..last]), Kept(accounts[last]))
  }

  function Supply(trees: nat): Inventory {
    var each := RESERVE_PER_TREE * trees;
    Inventory(each, each, each, each)
  }

  /** All there is of the four assets: in trees, with players or burned, and outside. */
  function InAll(w: World): Inventory {
    Plus(Plus(InTrees(w.trees), InAccounts(w.accounts)), EMPTY.(log := w.outside))
  }

  predicate Conserved(w: World) { InAll(w) == Supply(|w.trees|) }

  lemma {:induction false} TreeReplaced(trees: seq<Tree>, i: nat, t: Tree)
    requires i < |trees|
    ensures Plus(InTrees(trees[i := t]), trees[i].reserve) == Plus(InTrees(trees), t.reserve)
  {
    if i > 0 {
      TreeReplaced(trees[1..], i - 1, t);
      assert trees[i := t][1..] == trees[1..][i - 1 := t];
    } else {
      assert trees[0 := t][1..] == trees[1..];
    }
  }

  lemma {:induction false} AccountReplaced(accounts: seq<Account>, i: nat, a: Account)
    requires i < |accounts|
    ensures Plus(InAccounts(accounts[i := a]), Kept(accounts[i])) == Plus(InAccounts(accounts), Kept(a))
  {
    hide Kept;
    var last := |accounts| - 1;
    if i < last {
      AccountReplaced(accounts[..last], i, a);
      assert accounts[i := a][..last] == accounts[..last][i := a];
    } else {
      assert accounts[i := a][..last] == accounts[..last];
    }
  }

  lemma {:induction false} FullTrees(trees: nat)
    ensures InTrees(Deployed(trees).trees) == Supply(trees)
  {
    if trees > 0 {
      FullTrees(trees - 1);
      assert Deployed(trees).trees[1..] == Deployed(trees - 1).trees;
    }
  }

  // ----- what every run keeps -----

  /** Regrowth sets health to ten unseen; only the agreement modulo ten makes ten LOG remain. */
  predicate TreeSafe(t: Tree) {
    && t.reserve.log == t.reserve.xp <= RESERVE_PER_TREE
    && t.health <= LOGS_PER_TREE && t.health <= t.reserve.log
    && t.reserve.log % LOGS_PER_TREE == t.health % LOGS_PER_TREE
    && t.reserve.log <= t.reserve.stone <= RESERVE_PER_TREE
    && t.reserve.log <= t.reserve.ironOre <= RESERVE_PER_TREE
  }

  /** LOG earned equals XP, XP never leaves, and the axe is backed by it. */
  predicate AccountSafe(a: Account) {
    && a.player.held.log + a.withdrawn + a.burned.log == a.brought + a.player.held.xp
    && a.burned.xp == 0
    && AxeEarned(a.player)
  }

  predicate Safe(w: World) {
    && (forall t <- w.trees :: TreeSafe(t))
    && (forall a <- w.accounts :: AccountSafe(a))
    && Conserved(w)
  }

  /** The checks `decode_tree_with` makes before a client will act on an indexed tree. */
  predicate ClientAccepts(t: Tree) {
    && t.reserve.log <= RESERVE_PER_TREE && t.reserve.xp <= RESERVE_PER_TREE
    && t.reserve.stone <= RESERVE_PER_TREE && t.reserve.ironOre <= RESERVE_PER_TREE
    && t.reserve.log == t.reserve.xp && t.health <= t.reserve.log
  }

  lemma ChopKeepsTree(sha: Sha, p: Player, t: Tree)
    requires TreeSafe(t) && PrepareChop(sha, p, t).Ok?
    ensures TreeSafe(PrepareChop(sha, p, t).value.tree)
  {
    hide Advance, MaterialOf, BucketFold;
  }

  /** What the tree gives is what the player gains. */
  lemma ChopMoves(sha: Sha, p: Player, t: Tree)
    requires PrepareChop(sha, p, t).Ok?
    ensures var r := PrepareChop(sha, p, t).value;
            && Plus(r.player.held, r.tree.reserve) == Plus(p.held, t.reserve)
            && r.player.held.log - p.held.log == r.player.held.xp - p.held.xp >= 0
            && r.player.state.axe == p.state.axe
  {
    hide Advance, MaterialOf, BucketFold;
  }

  /** A player and a tree may change together if both stay safe and nothing appears or vanishes between them. */
  lemma PairKeeps(w: World, p: nat, a: Account, i: nat, t: Tree)
    requires Safe(w) && p < |w.accounts| && i < |w.trees| && AccountSafe(a) && TreeSafe(t)
    requires Plus(Kept(a), t.reserve) == Plus(Kept(w.accounts[p]), w.trees[i].reserve)
    ensures Safe(SetTree(SetAccount(w, p, a), i, t))
  {
    hide TreeSafe, AccountSafe, Kept;
    TreeReplaced(w.trees, i, t);
    AccountReplaced(w.accounts, p, a);
  }

  lemma AccountKeeps(w: World, p: nat, a: Account)
    requires Safe(w) && p < |w.accounts| && AccountSafe(a) && Kept(a) == Kept(w.accounts[p])
    ensures Safe(SetAccount(w, p, a))
  {
    hide TreeSafe, AccountSafe, Kept;
    AccountReplaced(w.accounts, p, a);
  }

  lemma TreeKeeps(w: World, i: nat, t: Tree)
    requires Safe(w) && i < |w.trees| && TreeSafe(t) && t.reserve == w.trees[i].reserve
    ensures Safe(SetTree(w, i, t))
  {
    hide TreeSafe, AccountSafe;
    TreeReplaced(w.trees, i, t);
  }

  lemma WithdrawKeepsAccount(a: Account, amount: nat)
    requires AccountSafe(a) && amount <= a.player.held.log
    ensures AccountSafe(AfterWithdraw(a, amount))
  {}

  lemma WithdrawKeeps(w: World, p: nat, amount: nat)
    requires Safe(w) && p < |w.accounts| && amount <= w.accounts[p].player.held.log
    ensures Safe(SetAccount(w.(outside := w.outside + amount), p, AfterWithdraw(w.accounts[p], amount)))
  {
    hide TreeSafe, AccountSafe, InTrees, InAccounts, Supply;
    var after := AfterWithdraw(w.accounts[p], amount);
    WithdrawKeepsAccount(w.accounts[p], amount);
    AccountReplaced(w.accounts, p, after);
    assert Plus(Kept(after), EMPTY.(log := amount)) == Kept(w.accounts[p]);
    var v := SetAccount(w.(outside := w.outside + amount), p, after);
    assert v.accounts == w.accounts[p := after];
  }

  lemma CraftKeepsAccount(a: Account)
    requires AccountSafe(a) && CanCraft(a.player.state, a.player.held)
    ensures AccountSafe(AfterCraft(a)) && Kept(AfterCraft(a)) == Kept(a)
  {
    RecipeRequirements(a.player.state.axe);
  }

  lemma ChopKeeps(sha: Sha, w: World, p: nat, t: nat)
    requires Safe(w) && Perform(sha, w, Chop(p, t)).Ok?
    ensures Safe(Perform(sha, w, Chop(p, t)).value)
  {
    hide PrepareChop, TreeSafe, Conserved;
    var account, tree := w.accounts[p], w.trees[t];
    var r := PrepareChop(sha, account.player, tree).value;
    ChopKeepsTree(sha, account.player, tree);
    ChopMoves(sha, account.player, tree);
    var after := account.(player := r.player);
    SafeAccount(w, p);
    assert Plus(Kept(after), r.tree.reserve) == Plus(Kept(account), tree.reserve);
    PairKeeps(w, p, account.(player := r.player), t, r.tree);
  }

  lemma StepKeeps(sha: Sha, w: World, a: Action)
    requires Safe(w)
    ensures Safe(Next(sha, w, a))
  {
    hide Safe, PrepareChop, SetAccount, SetTree;
    if Perform(sha, w, a).Ok? {
      match a
      case Chop(p, t) => ChopKeeps(sha, w, p, t);
      case Craft(p) => SafeAccount(w, p); CraftKeepsAccount(w.accounts[p]); AccountKeeps(w, p, AfterCraft(w.accounts[p]));
      case Withdraw(p, amount) => WithdrawKeeps(w, p, amount);
      case Regrow(t) => SafeTree(w, t); TreeKeeps(w, t, w.trees[t].(health := LOGS_PER_TREE));
      case Activate(luck, brought) => ActivateKeeps(w, luck, brought);
      case RenewPlayer(_) =>
      case Maintain(_) =>
    }
  }

  lemma SafeAccount(w: World, p: nat)
    requires Safe(w) && p < |w.accounts|
    ensures AccountSafe(w.accounts[p])
  {}

  lemma SafeTree(w: World, i: nat)
    requires Safe(w) && i < |w.trees|
    ensures TreeSafe(w.trees[i])
  {}

  lemma NewcomerIsSafe(luck: Luck, brought: nat)
    ensures AccountSafe(Newcomer(luck, brought)) && Kept(Newcomer(luck, brought)) == EMPTY.(log := brought)
  {}

  lemma ActivateKeeps(w: World, luck: Luck, brought: nat)
    requires Safe(w) && brought <= w.outside
    ensures Safe(World(w.trees, w.accounts + [Newcomer(luck, brought)], w.outside - brought))
  {
    hide TreeSafe, AccountSafe, Newcomer, Kept, InTrees;
    NewcomerIsSafe(luck, brought);
    var all := w.accounts + [Newcomer(luck, brought)];
    assert all[..|all| - 1] == w.accounts;
    assert InAccounts(all) == Plus(InAccounts(w.accounts), EMPTY.(log := brought));
  }

  lemma {:induction false} RunKeeps(sha: Sha, w: World, actions: seq<Action>)
    requires Safe(w)
    ensures Safe(Run(sha, w, actions)) && |Run(sha, w, actions).trees| == |w.trees|
    decreases |actions|
  {
    hide Perform, Safe;
    if actions != [] {
      StepKeeps(sha, w, actions[0]);
      TreesStay(sha, w, actions[0]);
      RunKeeps(sha, Next(sha, w, actions[0]), actions[1..]);
    }
  }

  lemma TreesStay(sha: Sha, w: World, a: Action)
    ensures |Next(sha, w, a).trees| == |w.trees|
  {
    hide PrepareChop, CanCraft;
  }

  function Reached(sha: Sha, trees: nat, actions: seq<Action>): World { Run(sha, Deployed(trees), actions) }

  /**
   Over every run from deployment: tree reserves, player balances, burns and the LOG outside add up to the
   fixed supply of all four assets; every tree and account is safe.
  */
  lemma EveryRunIsSafe(sha: Sha, trees: nat, actions: seq<Action>)
    ensures var w := Reached(sha, trees, actions);
            && InAll(w) == Inventory(50_000 * trees, 50_000 * trees, 50_000 * trees, 50_000 * trees)
            && (forall t <- w.trees ::
                  && t.health <= 10 && t.health <= t.reserve.log == t.reserve.xp <= 50_000
                  && t.reserve.log % 10 == t.health % 10
                  && t.reserve.log <= t.reserve.stone <= 50_000 && t.reserve.log <= t.reserve.ironOre <= 50_000)
            && (forall a <- w.accounts ::
                  && a.player.held.log + a.withdrawn + a.burned.log == a.brought + a.player.held.xp && a.burned.xp == 0
                  && a.player.held.xp >= (match a.player.state.axe case NoAxe => 0 case Wooden => 1 case Stone => 16 case Iron => 97))
            && Safe(w)
  {
    hide Run, Reached, InAll;
    ReachedIsSafe(sha, trees, actions);
    var w := Reached(sha, trees, actions);
    forall t <- w.trees ensures TreeSafe(t) {}
    forall a <- w.accounts ensures AccountSafe(a) {}
  }

  lemma DeployedIsSafe(trees: nat)
    ensures Safe(Deployed(trees)) && |Deployed(trees).trees| == trees
  {
    hide InTrees, Supply, Kept;
    FullTrees(trees);
    forall t <- Deployed(trees).trees ensures TreeSafe(t) {}
    PlusNothing(InTrees(Deployed(trees).trees));
  }

  lemma PlusNothing(a: Inventory)
    ensures Plus(a, EMPTY) == a
  {}

  lemma ReachedIsSafe(sha: Sha, trees: nat, actions: seq<Action>)
    ensures Safe(Reached(sha, trees, actions)) && |Reached(sha, trees, actions).trees| == trees
  {
    hide Safe, Run;
    DeployedIsSafe(trees);
    RunKeeps(sha, Deployed(trees), actions);
  }

  predicate Within(a: Inventory, b: Inventory) { a.log <= b.log && a.xp <= b.xp && a.stone <= b.stone && a.ironOre <= b.ironOre }

  /** Where no asset is created, a state made outside the game can only hold LOG, and only what is outside. */
  lemma OnlyLogIsOutside(w: World, held: Inventory)
    requires Safe(w)
    ensures Within(Plus(Plus(InTrees(w.trees), InAccounts(w.accounts)), held), Supply(|w.trees|))
       <==> held == EMPTY.(log := held.log) && held.log <= w.outside
  {
    hide TreeSafe, AccountSafe, InTrees, InAccounts, Supply;
  }

  /** No client check and no renewal rejects a tree the game can reach. */
  lemma ReachableTreesAreCanonical(sha: Sha, trees: nat, actions: seq<Action>, i: nat, tree: AssetId, ids: InventoryIds)
    requires i < |Reached(sha, trees, actions).trees|
    ensures var t := Reached(sha, trees, actions).trees[i];
            ClientAccepts(t) && PrepareTree(tree, ids, t, 1, false, true).Ok?
  {
    hide Run;
    ReachedIsSafe(sha, trees, actions);
    SafeTree(Reached(sha, trees, actions), i);
  }

  /**
   A client picks the game's own path for every reached tree: regrowth exactly for a stump with LOG left, which is
   when the game allows it, and maintenance otherwise. It carries over what the tree has after that action.
  */
  lemma RenewalFollowsGame(sha: Sha, trees: nat, actions: seq<Action>, i: nat, tree: AssetId, ids: InventoryIds)
    requires i < |Reached(sha, trees, actions).trees|
    ensures var w := Reached(sha, trees, actions);
            var r := PrepareTree(tree, ids, w.trees[i], 1, false, true);
            && r.Ok?
            && (r.value.regrowth <==> Perform(sha, w, Regrow(i)).Ok?)
            && (r.value.regrowth <==> w.trees[i].health == 0 && w.trees[i].reserve.log > 0)
            && var after := Next(sha, w, if r.value.regrowth then Regrow(i) else Maintain(i));
               && |after.trees| == |w.trees|
               && r.value.health == after.trees[i].health == (if r.value.regrowth then 10 else w.trees[i].health)
               && r.value.groups == RenewalGroups(tree, ids, after.trees[i].reserve)
               && after.trees[i].reserve == w.trees[i].reserve
  {
    hide Run, RenewalGroups;
    ReachableTreesAreCanonical(sha, trees, actions, i, tree, ids);
  }

  /** The builder of withdrawals refuses exactly what the game refuses, and for the same reason: nothing, or more than is held. */
  lemma WithdrawalFollowsGame(sha: Sha, w: World, p: nat, amount: nat, player: AssetId, ids: InventoryIds)
    requires p < |w.accounts|
    ensures var built := PrepareWithdraw(player, ids, w.accounts[p].player.held, amount);
            var played := Perform(sha, w, Withdraw(p, amount));
            && (built.Ok? <==> played.Ok?) && (built.Ok? <==> 0 < amount <= w.accounts[p].player.held.log)
            && (built.Err? ==> played == Err(WithdrawRejected(built.error)) && (built.error.ZeroAmount? <==> amount == 0))
            && (built.Ok? ==> played.value.outside == w.outside + amount)
  {}

  /** The next tier is there and its costs and experience are held. */
  predicate CanAfford(p: Player) {
    var h := p.held;
    match p.state.axe
    case NoAxe => h.xp >= 1 && h.log >= 1
    case Wooden => h.xp >= 16 && h.log >= 2 && h.stone >= 2
    case Stone => h.xp >= 97 && h.log >= 5 && h.ironOre >= 2
    case Iron => false
  }

  lemma AffordableIsCraftable(p: Player)
    ensures CanAfford(p) <==> CanCraft(p.state, p.held)
  {
    RecipeTable();
  }

  /**
   What the game refuses, it refuses for the reason a player sees: a chop fails exactly on a stump, a regrowth
   exactly off a stump with LOG, a craft exactly for want of its ingredients or experience or after the last tier,
   a withdrawal exactly for an amount not held, a newcomer exactly for LOG that is not outside, a renewal never;
   and the axe gate never fires.
  */
  lemma OnlyHonestRejections(sha: Sha, trees: nat, actions: seq<Action>, a: Action)
    requires Known(Reached(sha, trees, actions), a)
    ensures var w := Reached(sha, trees, actions);
            var r := Perform(sha, w, a);
            && r != Err(AxeNotEarned)
            && match a
               case Activate(_, brought) => r.Ok? <==> brought <= w.outside
               case Chop(_, t) =>
                 && (r.Err? <==> w.trees[t].health == 0)
                 && (r.Err? ==> r.error == ChopRejected(if w.trees[t].reserve.log == 0 then NoLog else Stump))
               case Craft(p) => r.Ok? <==> CanAfford(w.accounts[p].player)
               case Withdraw(p, amount) => r.Ok? <==> 0 < amount <= w.accounts[p].player.held.log
               case RenewPlayer(_) => r == Ok(w)
               case Maintain(_) => r == Ok(w)
               case Regrow(t) => r.Ok? <==> w.trees[t].health == 0 && w.trees[t].reserve.log > 0
  {
    hide Run, Advance, MaterialOf, BucketFold, CanCraft, CanAfford;
    var w := Reached(sha, trees, actions);
    ReachedIsSafe(sha, trees, actions);
    if a.Craft? { AffordableIsCraftable(w.accounts[a.player].player); }
    if a.Chop? { SafeTree(w, a.tree); SafeAccount(w, a.player); }
  }

  /** A tree stays in play exactly as long as it has LOG; a stump without LOG never changes again. */
  lemma {:induction false} SpentTreesAreFinal(sha: Sha, w: World, actions: seq<Action>, i: nat)
    requires Safe(w) && i < |w.trees| && w.trees[i].reserve.log == 0
    ensures i < |Run(sha, w, actions).trees| && Run(sha, w, actions).trees[i] == w.trees[i]
    decreases |actions|
  {
    hide Perform, Safe;
    if actions != [] {
      StepKeeps(sha, w, actions[0]);
      SpentTreeStays(sha, w, actions[0], i);
      SpentTreesAreFinal(sha, Next(sha, w, actions[0]), actions[1..], i);
    }
  }

  lemma SpentTreeStays(sha: Sha, w: World, a: Action, i: nat)
    requires i < |w.trees| && w.trees[i].reserve.log == 0
    ensures i < |Next(sha, w, a).trees| && Next(sha, w, a).trees[i] == w.trees[i]
  {
    hide Advance, MaterialOf, BucketFold, CanCraft;
  }
}
