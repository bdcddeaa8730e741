/**
 The covenants enforce the game. Any chain of transactions they accept, each spending what earlier ones created or a
 state made outside the game, whoever built them, is a run of the game's actions; so what holds of every run holds of
 every chain.
*/
module Chains {
  import opened Common
  import opened ScriptMachine
  import opened PlayerRules
  import opened CovenantFragments
  import opened PlayerCovenant
  import opened CraftCovenant
  import opened ChopCovenant
  import opened StateCovenants
  import opened CovenantPaths
  import opened Transactions
  import opened Forest

  /** The constants every contract of one world shares. */
  datatype Terms = Terms(tree: AssetId, ids: InventoryIds, dust: nat)

  // ----- one transaction -----

  predicate MovesPlayer(a: Action) { a.Chop? || a.Craft? || a.Withdraw? || a.RenewPlayer? }

  predicate MovesTree(a: Action) { a.Chop? || a.Maintain? || a.Regrow? }

  function PlayerInput(a: Action): nat { if a.RenewPlayer? then 1 else 0 }

  predicate SpendsPlayer(env: Env, input: nat, ids: InventoryIds, p: Player) {
    StateAt(env, OfInput(input)) == Some(p.state) && InventoryAt(env, Input(input), ids) == p.held
  }

  predicate SpendsTree(env: Env, ids: InventoryIds, t: Tree) {
    HealthAt(env, OfInput(1)) == Some(t.health) && InventoryAt(env, Input(1), ids) == t.reserve
  }

  /** The inputs of a transaction show the entities an action names. */
  predicate Spends(env: Env, ids: InventoryIds, w: World, a: Action)
    requires Known(w, a)
  {
    && (MovesPlayer(a) ==> SpendsPlayer(env, PlayerInput(a), ids, w.accounts[a.player].player))
    && (MovesTree(a) ==> SpendsTree(env, ids, w.trees[a.tree]))
  }

  /** The covenant path of an action accepts the transaction; an activation runs no covenant. */
  predicate Accepted(env: Env, terms: Terms, a: Action) {
    match a
    case Activate(_, _) => false
    case Chop(_, _) => ChopPathAccepted(env, terms.tree, terms.ids, terms.dust)
    case Craft(_) => CraftPathAccepted(env, terms.ids, terms.dust)
    case Withdraw(_, amount) => WithdrawPathAccepted(env, terms.ids, terms.dust) && Held(env, Output(1), terms.ids.log) == amount
    case RenewPlayer(_) => RenewalPathAccepted(env, terms.ids, terms.dust)
    case Maintain(_) => MaintenancePathAccepted(env, terms.tree, terms.ids)
    case Regrow(_) => RegrowthPathAccepted(env, terms.tree, terms.ids)
  }

  /** The player a transaction's outputs show, if all its packets decode. */
  function ShownPlayer(env: Env, ids: InventoryIds): Option<Player> {
    match StateAt(env, OfOutput)
    case None => None
    case Some(state) => Some(Player(state, InventoryAt(env, Output(0), ids)))
  }

  function ShownTree(env: Env, ids: InventoryIds, output: nat): Option<Tree> {
    match HealthAt(env, OfOutput)
    case None => None
    case Some(health) => Some(Tree(health, InventoryAt(env, Output(output), ids)))
  }

  function Less(a: nat, b: nat): nat { if a < b then 0 else a - b }

  /** What of the spent inventory none of the outputs holds. */
  function Burned(env: Env, ids: InventoryIds): Inventory {
    var (before, after) := (InventoryAt(env, Input(0), ids), InventoryAt(env, Output(0), ids));
    Inventory(Less(before.log, after.log), Less(before.xp, after.xp), Less(before.stone, after.stone), Less(before.ironOre, after.ironOre))
  }

  /** The world as a transaction's own outputs show it; `None` if some packet of them does not decode. */
  function After(env: Env, ids: InventoryIds, w: World, a: Action): Option<World>
    requires Known(w, a)
  {
    if a.Activate? then None
    else
      var player, tree := ShownPlayer(env, ids), ShownTree(env, ids, if a.Chop? then 1 else 0);
      if (MovesPlayer(a) && player.None?) || (MovesTree(a) && tree.None?) then None
      else
        Some(match a
             case Chop(p, t) => SetTree(SetAccount(w, p, w.accounts[p].(player := player.value)), t, tree.value)
             case Craft(p) =>
               SetAccount(w, p, w.accounts[p].(player := player.value, burned := Plus(w.accounts[p].burned, Burned(env, ids))))
             case Withdraw(p, _) =>
               var amount := Held(env, Output(1), ids.log);
               SetAccount(w.(outside := w.outside + amount), p,
                          w.accounts[p].(player := player.value, withdrawn := w.accounts[p].withdrawn + amount))
             case RenewPlayer(p) => SetAccount(w, p, w.accounts[p].(player := player.value))
             case Maintain(t) => SetTree(w, t, tree.value)
             case Regrow(t) => SetTree(w, t, tree.value)
             case Activate(_, _) => w)
  }

  /** The entities are locked again by their own scripts, and a tree keeps its place. */
  predicate Recreates(env: Env, a: Action) {
    && (MovesPlayer(a) ==> SameScript(env, PlayerInput(a), 0))
    && (MovesTree(a) ==> SameScript(env, 1, if a.Chop? then 1 else 0) && SamePacket(env, TREE_STATE_PACKET_TYPE, 1))
  }

  /**
   Whatever the covenants accept is a step of the game: its outputs show exactly the world after the action,
   packets and balances alike, under the same locks. Only a withdrawal of zero, which the covenant tolerates,
   is not an allowed action, and it changes nothing.
  */
  lemma AcceptedTransactionsAreSteps(env: Env, terms: Terms, w: World, a: Action)
    requires Known(w, a) && Spends(env, terms.ids, w, a) && Accepted(env, terms, a)
    ensures After(env, terms.ids, w, a) == Some(Next(env.sha, w, a))
    ensures Perform(env.sha, w, a).Ok? <==> !(a.Withdraw? && a.amount == 0)
    ensures Recreates(env, a)
  {
    hide StateAt, HealthAt, PrepareChop, ChopAccepted, Held, InventoryAt, CraftAccepted, CanCraft, RegrowthAccepted,
         MaintenanceAccepted, WithdrawAccepted, AllUnchanged, SamePacket, Seeded, SameScript, ValueAt, OnlyInventory;
    match a
    case Chop(p, t) => AcceptedChopIsStep(env, terms, w, p, t);
    case Craft(p) => AcceptedCraftIsStep(env, terms, w, p);
    case Withdraw(p, amount) => AcceptedWithdrawalIsStep(env, terms, w, p, amount);
    case RenewPlayer(p) => AcceptedRenewalIsStep(env, terms, w, p);
    case Maintain(t) => AcceptedTreeRenewal(env, terms.tree, terms.ids, w.trees[t], false); SameTree(w, t);
    case Regrow(t) => AcceptedTreeRenewal(env, terms.tree, terms.ids, w.trees[t], true);
  }

  lemma SameTree(w: World, t: nat)
    requires t < |w.trees|
    ensures SetTree(w, t, w.trees[t]) == w
  {}

  lemma SameAccount(w: World, p: nat)
    requires p < |w.accounts|
    ensures SetAccount(w, p, w.accounts[p]) == w
  {}

  lemma AcceptedChopIsStep(env: Env, terms: Terms, w: World, p: nat, t: nat)
    requires Known(w, Chop(p, t)) && Spends(env, terms.ids, w, Chop(p, t)) && Accepted(env, terms, Chop(p, t))
    ensures Perform(env.sha, w, Chop(p, t)).Ok? && After(env, terms.ids, w, Chop(p, t)) == Some(Next(env.sha, w, Chop(p, t)))
  {
    hide StateAt, HealthAt, PrepareChop, ChopAccepted, InventoryAt, SamePacket, Seeded, Relocked;
    SeededIsEarned(env, 0, terms.ids, w.accounts[p].player);
    AcceptedChopIsHostChop(env, terms.tree, terms.ids, w.accounts[p].player, w.trees[t]);
  }

  /** The seed program of every player path includes the axe gate. */
  lemma SeededIsEarned(env: Env, input: nat, ids: InventoryIds, p: Player)
    requires SpendsPlayer(env, input, ids, p) && Seeded(env, input, ids.xp)
    ensures AxeEarned(p)
  {
    hide AxeAt, CreditAt, RollAt, AmountAt, Newborn, FirstSpend, HasOrigin;
  }

  /** A state carried over in all its packets. */
  lemma StateCarried(env: Env, input: nat, state: PlayerState)
    requires StateAt(env, OfInput(input)) == Some(state) && SamePackets(env, PLAYER_PACKETS, input)
    ensures StateAt(env, OfOutput) == Some(state)
  {
    hide StateAt, SamePacket;
    assert PLAYER_ROLL_PACKET_TYPE in PLAYER_PACKETS && PLAYER_LUCK_CREDIT_PACKET_TYPE in PLAYER_PACKETS
           && PLAYER_AXE_PACKET_TYPE in PLAYER_PACKETS;
    SameStateSamePackets(env, input);
  }

  lemma LuckCarried(env: Env, state: PlayerState, axe: AxeTier)
    requires StateAt(env, OfInput(0)) == Some(state) && SamePackets(env, LUCK_PACKETS, 0) && AxeAt(env, OfOutput) == Some(axe)
    ensures StateAt(env, OfOutput) == Some(PlayerState(state.luck, axe))
  {
    hide SamePacket, RollAt, CreditAt, AxeAt;
    assert PLAYER_ROLL_PACKET_TYPE in LUCK_PACKETS && PLAYER_LUCK_CREDIT_PACKET_TYPE in LUCK_PACKETS;
    SameLuckSamePackets(env, 0);
  }

  lemma AcceptedCraftIsStep(env: Env, terms: Terms, w: World, p: nat)
    requires Known(w, Craft(p)) && Spends(env, terms.ids, w, Craft(p)) && Accepted(env, terms, Craft(p))
    ensures Perform(env.sha, w, Craft(p)).Ok? && After(env, terms.ids, w, Craft(p)) == Some(Next(env.sha, w, Craft(p)))
  {
    hide AxeAt, RollAt, CreditAt, AmountAt, CraftAccepted, SamePackets, Seeded, Relocked, OnlyInventory;
    var account := w.accounts[p];
    AcceptedCraftIsBuildable(env, terms.ids, account.player.state, account.player.held);
    LuckCarried(env, account.player.state, account.player.state.axe.NextRecipe().value.axe);
    assert Burned(env, terms.ids) == Crafting(account.player).1;
  }

  lemma AcceptedWithdrawalIsStep(env: Env, terms: Terms, w: World, p: nat, amount: nat)
    requires Known(w, Withdraw(p, amount)) && Spends(env, terms.ids, w, Withdraw(p, amount)) && Accepted(env, terms, Withdraw(p, amount))
    ensures Perform(env.sha, w, Withdraw(p, amount)).Ok? <==> amount != 0
    ensures After(env, terms.ids, w, Withdraw(p, amount)) == Some(Next(env.sha, w, Withdraw(p, amount)))
  {
    hide StateAt, Held, WithdrawAccepted, SamePackets, Seeded, Relocked, SameValue;
    AcceptedWithdrawalMovesLog(env, terms.ids);
    StateCarried(env, 0, w.accounts[p].player.state);
    SameAccount(w, p);
  }

  lemma AcceptedRenewalIsStep(env: Env, terms: Terms, w: World, p: nat)
    requires Known(w, RenewPlayer(p)) && Spends(env, terms.ids, w, RenewPlayer(p)) && Accepted(env, terms, RenewPlayer(p))
    ensures After(env, terms.ids, w, RenewPlayer(p)) == Some(w)
  {
    hide StateAt, Held, AllUnchanged, SamePackets, Seeded, Relocked;
    UnchangedInventory(env, terms.ids);
    StateCarried(env, 1, w.accounts[p].player.state);
    SameAccount(w, p);
  }

  // ----- chains -----

  /**
   Whose state a transaction spends: one the world shows, one the covenants see for the first time, or a stray one
   whose packets do not even decode.
  */
  datatype Spender = Member | Entrant | Stray

  /** A transaction with the action its covenants run for. */
  datatype Tx = Tx(env: Env, spender: Spender, a: Action)

  /** The inventory the spent player's state holds. */
  function Holding(t: Tx, ids: InventoryIds): Inventory { InventoryAt(t.env, Input(PlayerInput(t.a)), ids) }

  function StateOf(t: Tx): Option<PlayerState> { StateAt(t.env, OfInput(PlayerInput(t.a))) }

  /** The state holds LOG from outside and nothing else; where no asset is created, nothing else is possible. */
  predicate HoldsOutsideLog(w: World, t: Tx, ids: InventoryIds) {
    Holding(t, ids) == EMPTY.(log := Holding(t, ids).log) && Holding(t, ids).log <= w.outside
  }

  /** A state made outside the game, by activation or in any other way, with whatever roll and credit it shows. */
  predicate Enters(w: World, t: Tx, ids: InventoryIds) {
    MovesPlayer(t.a) && t.a.player == |w.accounts| && StateOf(t).Some? && HoldsOutsideLog(w, t, ids)
  }

  predicate Strays(w: World, t: Tx, ids: InventoryIds) { MovesPlayer(t.a) && StateOf(t).None? && HoldsOutsideLog(w, t, ids) }

  function Entry(t: Tx, ids: InventoryIds): Action
    requires StateOf(t).Some?
  {
    Activate(StateOf(t).value.luck, Holding(t, ids).log)
  }

  /** A player counts from the first spend of its state; before that anyone may write any packets. */
  function Entered(w: World, t: Tx, ids: InventoryIds): World {
    if t.spender.Entrant? && StateOf(t).Some? then Next(t.env.sha, w, Entry(t, ids)) else w
  }

  /** An accepted transaction on top of a world: it spends what the world shows, or a state made outside it. */
  ghost predicate Extends(sha: Sha, terms: Terms, w: World, t: Tx) {
    var (env, a) := (t.env, t.a);
    && env.sha == sha && Accepted(env, terms, a)
    && match t.spender
       case Stray => Strays(w, t, terms.ids)
       case Entrant =>
         && Enters(w, t, terms.ids) && Known(Entered(w, t, terms.ids), a)
         && (MovesTree(a) ==> SpendsTree(env, terms.ids, w.trees[a.tree]))
       case Member => Known(w, a) && Spends(env, terms.ids, w, a)
  }

  /** The world a transaction's outputs show; a stray state stays outside the game, with its LOG. */
  function Onward(terms: Terms, w: World, t: Tx): Option<World>
    requires t.spender.Stray? || Known(Entered(w, t, terms.ids), t.a)
  {
    if t.spender.Stray? then Some(w) else After(t.env, terms.ids, Entered(w, t, terms.ids), t.a)
  }

  /** Each transaction extends the world that the outputs of the ones before it show. */
  ghost predicate Chained(sha: Sha, terms: Terms, w: World, chain: seq<Tx>)
    decreases |chain|
  {
    chain != [] ==>
      && Extends(sha, terms, w, chain[0])
      && var next := Onward(terms, w, chain[0]);
         next.Some? ==> Chained(sha, terms, next.value, chain[1..])
  }

  /** The world the outputs of a whole chain show. */
  ghost function Shown(sha: Sha, terms: Terms, w: World, chain: seq<Tx>): Option<World>
    requires Chained(sha, terms, w, chain)
    decreases |chain|
  {
    if chain == [] then Some(w)
    else match Onward(terms, w, chain[0]) case None => None case Some(next) => Shown(sha, terms, next, chain[1..])
  }

  function ActionsOf(t: Tx, ids: InventoryIds): seq<Action> {
    match t.spender
    case Stray => []
    case Entrant => (if StateOf(t).Some? then [Entry(t, ids)] else []) + [t.a]
    case Member => [t.a]
  }

  function Actions(chain: seq<Tx>, ids: InventoryIds): seq<Action> {
    if chain == [] then [] else ActionsOf(chain[0], ids) + Actions(chain[1..], ids)
  }

  /** Every player path runs the seed program. */
  lemma AcceptedIsSeeded(env: Env, terms: Terms, a: Action)
    requires MovesPlayer(a) && Accepted(env, terms, a)
    ensures Seeded(env, PlayerInput(a), terms.ids.xp)
  {
    hide Seeded, Relocked, SamePackets, ChopAccepted, CraftAccepted, WithdrawAccepted, OnlyInventory, AllUnchanged, SameValue;
  }

  /** The axe gate lets a state without experience in only without an axe: what enters is a newcomer. */
  lemma EntrantIsNewcomer(t: Tx, terms: Terms)
    requires MovesPlayer(t.a) && Accepted(t.env, terms, t.a) && StateOf(t).Some?
    requires Holding(t, terms.ids) == EMPTY.(log := Holding(t, terms.ids).log)
    ensures SpendsPlayer(t.env, PlayerInput(t.a), terms.ids, Newcomer(StateOf(t).value.luck, Holding(t, terms.ids).log).player)
  {
    AcceptedIsSeeded(t.env, terms, t.a);
    hide Accepted, AmountAt, RollAt, CreditAt, Newborn, FirstSpend, HasOrigin;
  }

  /** A first spend is seeded: the roll hashed from the state's own program, the initial credit, no axe. */
  lemma FirstSpendIsActivated(t: Tx, terms: Terms)
    requires MovesPlayer(t.a) && Accepted(t.env, terms, t.a) && FirstSpend(t.env, PlayerInput(t.a))
    ensures ProgramAt(t.env, Input(PlayerInput(t.a))).Some?
    ensures StateOf(t) == Some(Activated(t.env.sha, ProgramAt(t.env, Input(PlayerInput(t.a))).value))
  {
    AcceptedIsSeeded(t.env, terms, t.a);
    hide Accepted, DecodeAxe, DecodeCredit, AmountAt;
  }

  /**
   A stray state never plays: without experience it can only be renewed or give back LOG it was made with, and it
   never comes to decode.
  */
  lemma StraysNeverPlay(t: Tx, terms: Terms)
    requires MovesPlayer(t.a) && Accepted(t.env, terms, t.a) && StateOf(t).None?
    requires Holding(t, terms.ids) == EMPTY.(log := Holding(t, terms.ids).log)
    ensures t.a.Withdraw? || t.a.RenewPlayer?
    ensures StateAt(t.env, OfOutput).None?
    ensures var left := InventoryAt(t.env, Output(0), terms.ids);
            left == EMPTY.(log := left.log) && left.log + (if t.a.Withdraw? then t.a.amount else 0) == Holding(t, terms.ids).log
  {
    hide Seeded, Relocked, DecodeAxe, DecodeCredit, AmountAt, OnlyInventory, SameValue, AllUnchanged, SamePackets, SamePacket;
    match t.a
    case Chop(_, _) =>
    case Craft(_) => RecipeRequirements(AxeAt(t.env, OfInput(0)).value);
    case Withdraw(_, _) => AcceptedWithdrawalMovesLog(t.env, terms.ids); StateStaysMissing(t.env, 0);
    case RenewPlayer(_) => UnchangedInventory(t.env, terms.ids); StateStaysMissing(t.env, 1);
  }

  lemma StateStaysMissing(env: Env, input: nat)
    requires SamePackets(env, PLAYER_PACKETS, input) && StateAt(env, OfInput(input)).None?
    ensures StateAt(env, OfOutput).None?
  {
    hide DecodeAxe, DecodeCredit;
    assert PLAYER_ROLL_PACKET_TYPE in PLAYER_PACKETS && PLAYER_LUCK_CREDIT_PACKET_TYPE in PLAYER_PACKETS
           && PLAYER_AXE_PACKET_TYPE in PLAYER_PACKETS;
  }

  lemma ExtendingSpends(sha: Sha, terms: Terms, w: World, t: Tx)
    requires Extends(sha, terms, w, t) && !t.spender.Stray?
    ensures Known(Entered(w, t, terms.ids), t.a) && Spends(t.env, terms.ids, Entered(w, t, terms.ids), t.a)
    ensures t.env.sha == sha && Accepted(t.env, terms, t.a)
  {
    hide Accepted, SpendsTree, SpendsPlayer, InventoryAt, Newcomer, StateAt;
    if t.spender.Entrant? { EntrantIsNewcomer(t, terms); }
  }

  lemma {:induction false} RunOnwards(sha: Sha, w: World, a: seq<Action>, b: seq<Action>)
    ensures Run(sha, w, a + b) == Run(sha, Run(sha, w, a), b)
    decreases |a|
  {
    hide Next;
    if a == [] {
      assert a + b == b;
    } else {
      assert (a + b)[1..] == a[1..] + b;
      RunOnwards(sha, Next(sha, w, a[0]), a[1..], b);
    }
  }

  lemma ActionsRun(sha: Sha, w: World, t: Tx, ids: InventoryIds)
    requires t.env.sha == sha && !t.spender.Stray?
    ensures Run(sha, w, ActionsOf(t, ids)) == Next(sha, Entered(w, t, ids), t.a)
  {
    hide Next, Entry, Run, StateAt;
    OneAction(sha, Entered(w, t, ids), t.a);
    if t.spender.Entrant? && StateOf(t).Some? {
      OneAction(sha, w, Entry(t, ids));
      RunOnwards(sha, w, [Entry(t, ids)], [t.a]);
    } else {
      assert [] + [t.a] == [t.a];
    }
  }

  lemma StrayRuns(w: World, t: Tx, terms: Terms, sha: Sha)
    requires t.spender.Stray?
    ensures Run(sha, w, ActionsOf(t, terms.ids)) == w && Onward(terms, w, t) == Some(w)
  {}

  /** Every chain of accepted transactions shows the world its actions lead to. */
  lemma {:induction false} ChainsAreRuns(sha: Sha, terms: Terms, w: World, chain: seq<Tx>)
    requires Chained(sha, terms, w, chain)
    ensures Shown(sha, terms, w, chain) == Some(Run(sha, w, Actions(chain, terms.ids)))
    decreases |chain|
  {
    hide Extends, Accepted, Spends, After, Next, Entered, ActionsOf;
    if chain != [] {
      var t := chain[0];
      RunOnwards(sha, w, ActionsOf(t, terms.ids), Actions(chain[1..], terms.ids));
      if t.spender.Stray? {
        StrayRuns(w, t, terms, sha);
        ChainsAreRuns(sha, terms, w, chain[1..]);
      } else {
        var entered := Entered(w, t, terms.ids);
        ExtendingSpends(sha, terms, w, t);
        AcceptedTransactionsAreSteps(t.env, terms, entered, t.a);
        ActionsRun(sha, w, t, terms.ids);
        ChainsAreRuns(sha, terms, Next(sha, entered, t.a), chain[1..]);
      }
    }
  }

  /**
   From deployment, however transactions are built: the reserves, balances and burns that the outputs of a chain
   show and the LOG outside add up to the supply, and every tree and every account they show is safe.
  */
  lemma EveryChainIsSafe(sha: Sha, terms: Terms, trees: nat, chain: seq<Tx>)
    requires Chained(sha, terms, Deployed(trees), chain)
    ensures Shown(sha, terms, Deployed(trees), chain).Some?
    ensures var w := Shown(sha, terms, Deployed(trees), chain).value;
            && InAll(w) == Supply(trees)
            && (forall t <- w.trees :: TreeSafe(t))
            && (forall a <- w.accounts :: AccountSafe(a))
  {
    hide Chained, Shown, Run;
    ChainsAreRuns(sha, terms, Deployed(trees), chain);
    EveryRunIsSafe(sha, trees, Actions(chain, terms.ids));
  }
}
