/** The axe-recipe part of the craft covenant, and the host builder whose transactions it accepts. */
module CraftCovenant {
  import opened Common
  import opened ScriptNumber
  import opened ScriptMachine
  import opened PlayerRules
  import opened CovenantFragments
  import opened PlayerCovenant

  datatype InventoryIds = InventoryIds(log: AssetId, xp: AssetId, stone: AssetId, ironOre: AssetId) {
    predicate Distinct() {
      log != xp && log != stone && log != ironOre && xp != stone && xp != ironOre && stone != ironOre
    }
  }

  // ----- the covenant -----

  /** Input balance of the state is its output balance plus exactly `amount`. */
  function BurnCode(asset: AssetId, amount: nat, next: Code): Code {
    BalanceCode(Input(0), asset, BalanceCode(Output(0), asset, Ops3(PushInt(amount), Add, EqualVerify, next)))
  }

  predicate Burns(env: Env, asset: AssetId, amount: nat) {
    Held(env, Input(0), asset) == Held(env, Output(0), asset) + amount
  }

  lemma BurnRuns(asset: AssetId, amount: nat, next: Code, env: Env, vm: Vm)
    requires Live(vm)
    ensures Exec(BurnCode(asset, amount, next), env, vm)
         == Exec(next, env, if Burns(env, asset, amount) then vm else Halted)
  {
    hide Exec, Step, Encode, BalanceCode, Held;
    var check := Ops3(PushInt(amount), Add, EqualVerify, next);
    var before, after := Held(env, Input(0), asset), Held(env, Output(0), asset);
    BalanceRuns(Input(0), asset, BalanceCode(Output(0), asset, check), env, vm);
    BalanceRuns(Output(0), asset, check, env, PushNumber(vm, before));
    ConstantRuns(Add, after, amount, Cons(EqualVerify, next), env, PushNumber(vm, before));
    EqualVerifyRuns(before, after + amount, next, env, vm);
  }

  lemma BurnSkips(asset: AssetId, amount: nat, next: Code, env: Env, vm: Vm)
    requires Dead(vm)
    ensures Exec(BurnCode(asset, amount, next), env, vm) == Exec(next, env, vm)
  {
    hide Exec, Step, BalanceCode;
    var check := Ops3(PushInt(amount), Add, EqualVerify, next);
    BalanceSkips(Input(0), asset, BalanceCode(Output(0), asset, check), env, vm);
    BalanceSkips(Output(0), asset, check, env, vm);
    SkippedRun(check, 3, env, vm);
  }

  function RequireXpCode(xp: AssetId, required: nat, next: Code): Code {
    BalanceCode(Input(0), xp, Ops3(PushInt(required - 1), GreaterThan, Verify, next))
  }

  lemma RequireXpRuns(xp: AssetId, required: nat, next: Code, env: Env, vm: Vm)
    requires Live(vm)
    ensures Exec(RequireXpCode(xp, required, next), env, vm)
         == Exec(next, env, if Held(env, Input(0), xp) >= required then vm else Halted)
  {
    hide Exec, Step, Encode, BalanceCode, Held;
    var held := Held(env, Input(0), xp);
    BalanceRuns(Input(0), xp, Ops3(PushInt(required - 1), GreaterThan, Verify, next), env, vm);
    ConstantRuns(GreaterThan, held, required - 1, Cons(Verify, next), env, vm);
    VerifyRuns(held >= required, next, env, vm);
  }

  lemma RequireXpSkips(xp: AssetId, required: nat, next: Code, env: Env, vm: Vm)
    requires Dead(vm)
    ensures Exec(RequireXpCode(xp, required, next), env, vm) == Exec(next, env, vm)
  {
    hide Exec, Step, BalanceCode;
    var check := Ops3(PushInt(required - 1), GreaterThan, Verify, next);
    BalanceSkips(Input(0), xp, check, env, vm);
    SkippedRun(check, 3, env, vm);
  }

  /** XP gate and the three exact burns of one recipe. */
  function CostCode(ids: InventoryIds, recipe: AxeRecipe, next: Code): Code
    requires 1 <= recipe.requiredLevel <= 15
  {
    RequireXpCode(ids.xp, recipe.RequiredXpBalance(),
      BurnCode(ids.log, recipe.logCost,
        BurnCode(ids.stone, recipe.stoneCost,
          BurnCode(ids.ironOre, recipe.ironOreCost, next))))
  }

  predicate Pays(env: Env, ids: InventoryIds, recipe: AxeRecipe)
    requires 1 <= recipe.requiredLevel <= 15
  {
    && Held(env, Input(0), ids.xp) >= recipe.RequiredXpBalance()
    && Burns(env, ids.log, recipe.logCost)
    && Burns(env, ids.stone, recipe.stoneCost)
    && Burns(env, ids.ironOre, recipe.ironOreCost)
  }

  lemma CostRuns(ids: InventoryIds, recipe: AxeRecipe, next: Code, env: Env, vm: Vm)
    requires Live(vm) && 1 <= recipe.requiredLevel <= 15
    ensures Exec(CostCode(ids, recipe, next), env, vm)
         == Exec(next, env, if Pays(env, ids, recipe) then vm else Halted)
  {
    hide Exec, BurnCode, RequireXpCode, Burns, Held;
    var third := BurnCode(ids.ironOre, recipe.ironOreCost, next);
    var second := BurnCode(ids.stone, recipe.stoneCost, third);
    var first := BurnCode(ids.log, recipe.logCost, second);
    RequireXpRuns(ids.xp, recipe.RequiredXpBalance(), first, env, vm);
    BurnRuns(ids.log, recipe.logCost, second, env, vm);
    BurnRuns(ids.stone, recipe.stoneCost, third, env, vm);
    BurnRuns(ids.ironOre, recipe.ironOreCost, next, env, vm);
    ExecHalted(first, env);
    ExecHalted(second, env);
    ExecHalted(third, env);
    ExecHalted(next, env);
  }

  lemma CostSkips(ids: InventoryIds, recipe: AxeRecipe, next: Code, env: Env, vm: Vm)
    requires Dead(vm) && 1 <= recipe.requiredLevel <= 15
    ensures Exec(CostCode(ids, recipe, next), env, vm) == Exec(next, env, vm)
  {
    hide Exec, BurnCode, RequireXpCode;
    var third := BurnCode(ids.ironOre, recipe.ironOreCost, next);
    var second := BurnCode(ids.stone, recipe.stoneCost, third);
    RequireXpSkips(ids.xp, recipe.RequiredXpBalance(), BurnCode(ids.log, recipe.logCost, second), env, vm);
    BurnSkips(ids.log, recipe.logCost, second, env, vm);
    BurnSkips(ids.stone, recipe.stoneCost, third, env, vm);
    BurnSkips(ids.ironOre, recipe.ironOreCost, next, env, vm);
  }

  const WOODEN := AxeRecipe(Wooden, 1, 1, 0, 0)
  const STONE := AxeRecipe(Stone, 5, 2, 2, 0)
  const IRON := AxeRecipe(Iron, 15, 5, 0, 2)

  /** From `burn xp 0` to the final ENDIFs of `player_craft_covenant_script`. */
  function RecipeCode(ids: InventoryIds, next: Code): Code {
    BurnCode(ids.xp, 0, AxeCode(OfInput(0), UpgradeCode(BranchesCode(ids, next))))
  }

  /** The output tier is one above the input tier, which stays on the stack and is below Iron. */
  function UpgradeCode(next: Code): Code {
    RequireBelow(3, Ops3(Dup, PushInt(1), Add, AxeCode(OfOutput, Cons(EqualVerify, next))))
  }

  function ArmCode(tier: nat, body: Code): Code { Ops5(Dup, PushInt(tier), Equal, If, Drop, body) }

  function BranchesCode(ids: InventoryIds, next: Code): Code {
    ArmCode(0, CostCode(ids, WOODEN, Cons(Else, LaterCode(ids, next))))
  }

  function LaterCode(ids: InventoryIds, next: Code): Code {
    ArmCode(1, CostCode(ids, STONE, Ops2(Else, Drop, CostCode(ids, IRON, Ops2(EndIf, EndIf, next)))))
  }

  lemma UpgradeRuns(axe: AxeTier, next: Code, env: Env, vm: Vm)
    requires Live(vm)
    ensures Exec(UpgradeCode(next), env, PushNumber(vm, axe.Tier()))
         == Exec(next, env, if axe.NextRecipe().Some? && AxeAt(env, OfOutput) == Some(axe.NextRecipe().value.axe)
                            then PushNumber(vm, axe.Tier()) else Halted)
  {
    hide Exec, Step, Encode, AxeCode, RequireBelow, AxeAt;
    var check := Cons(EqualVerify, next);
    var output := AxeCode(OfOutput, check);
    var increment := Ops3(Dup, PushInt(1), Add, output);
    var start := PushNumber(vm, axe.Tier());
    RequireBelowRuns(3, axe.Tier(), increment, env, vm);
    ExecHalted(increment, env);
    ExecHalted(check, env);
    ExecHalted(next, env);
    StackRuns(Dup, Ops2(PushInt(1), Add, output), env, start);
    ConstantRuns(Add, axe.Tier(), 1, output, env, start);
    AxeRuns(OfOutput, check, env, PushNumber(start, axe.Tier() + 1));
    match AxeAt(env, OfOutput) {
      case None =>
      case Some(after) => EqualVerifyRuns(axe.Tier() + 1, after.Tier(), next, env, start);
    }
  }

  lemma ArmRuns(tier: nat, n: int, body: Code, env: Env, vm: Vm)
    requires Live(vm)
    ensures Exec(ArmCode(tier, body), env, PushNumber(vm, n))
         == Exec(body, env, if n == tier then Enter(vm, Taken) else PushNumber(Enter(vm, NotTaken), n))
  {
    hide Exec, Step, Encode;
    TierTestRuns(tier, n, Cons(Drop, body), env, vm);
    if n == tier { StackRuns(Drop, body, env, PushNumber(Enter(vm, Taken), n)); }
    else { SkippedRun(Cons(Drop, body), 1, env, PushNumber(Enter(vm, NotTaken), n)); }
  }

  lemma LaterSkips(ids: InventoryIds, next: Code, env: Env, vm: Vm)
    requires Live(vm)
    ensures Exec(LaterCode(ids, next), env, Enter(vm, NotTaken)) == Exec(next, env, vm)
  {
    hide Exec, Step, CostCode;
    var finish := Ops2(EndIf, EndIf, next);
    var last := Ops2(Else, Drop, CostCode(ids, IRON, finish));
    var outer := Enter(vm, NotTaken);
    var inside := Enter(outer, Skipped);
    SkippedRun(LaterCode(ids, next), 3, env, outer);
    IfSkips(Cons(Drop, CostCode(ids, STONE, last)), env, outer);
    SkippedRun(Cons(Drop, CostCode(ids, STONE, last)), 1, env, inside);
    CostSkips(ids, STONE, last, env, inside);
    BranchRuns(Else, Cons(Drop, CostCode(ids, IRON, finish)), env, inside);
    SkippedRun(Cons(Drop, CostCode(ids, IRON, finish)), 1, env, inside);
    CostSkips(ids, IRON, finish, env, inside);
    BranchRuns(EndIf, Cons(EndIf, next), env, inside);
    BranchRuns(EndIf, next, env, outer);
  }

  lemma LaterRuns(ids: InventoryIds, axe: AxeTier, next: Code, env: Env, vm: Vm)
    requires Live(vm) && (axe == Wooden || axe == Stone)
    ensures Exec(LaterCode(ids, next), env, PushNumber(Enter(vm, Taken), axe.Tier()))
         == Exec(next, env, if Pays(env, ids, axe.NextRecipe().value) then vm else Halted)
  {
    hide Exec, Step, Encode, CostCode, ArmCode, Pays;
    var finish := Ops2(EndIf, EndIf, next);
    var iron := CostCode(ids, IRON, finish);
    var last := Ops2(Else, Drop, iron);
    var outer := Enter(vm, Taken);
    ArmRuns(1, axe.Tier(), CostCode(ids, STONE, last), env, outer);
    ExecHalted(last, env);
    ExecHalted(finish, env);
    ExecHalted(next, env);
    if axe == Wooden {
      CostRuns(ids, STONE, last, env, Enter(outer, Taken));
      BranchRuns(Else, Cons(Drop, iron), env, Enter(outer, Taken));
      SkippedRun(Cons(Drop, iron), 1, env, Enter(outer, NotTaken));
      CostSkips(ids, IRON, finish, env, Enter(outer, NotTaken));
      BranchRuns(EndIf, Cons(EndIf, next), env, Enter(outer, NotTaken));
    } else {
      CostSkips(ids, STONE, last, env, PushNumber(Enter(outer, NotTaken), 2));
      BranchRuns(Else, Cons(Drop, iron), env, PushNumber(Enter(outer, NotTaken), 2));
      StackRuns(Drop, iron, env, PushNumber(Enter(outer, Taken), 2));
      CostRuns(ids, IRON, finish, env, Enter(outer, Taken));
      BranchRuns(EndIf, Cons(EndIf, next), env, Enter(outer, Taken));
    }
    BranchRuns(EndIf, next, env, outer);
  }

  lemma BranchesRun(ids: InventoryIds, axe: AxeTier, next: Code, env: Env, vm: Vm)
    requires Live(vm) && axe != Iron
    ensures Exec(BranchesCode(ids, next), env, PushNumber(vm, axe.Tier()))
         == Exec(next, env, if Pays(env, ids, axe.NextRecipe().value) then vm else Halted)
  {
    hide Exec, Step, Encode, CostCode, ArmCode, Pays, LaterCode;
    var rest := Cons(Else, LaterCode(ids, next));
    ArmRuns(0, axe.Tier(), CostCode(ids, WOODEN, rest), env, vm);
    ExecHalted(rest, env);
    ExecHalted(next, env);
    if axe == NoAxe {
      CostRuns(ids, WOODEN, rest, env, Enter(vm, Taken));
      BranchRuns(Else, LaterCode(ids, next), env, Enter(vm, Taken));
      LaterSkips(ids, next, env, vm);
    } else {
      var kept := PushNumber(Enter(vm, NotTaken), axe.Tier());
      CostSkips(ids, WOODEN, rest, env, kept);
      BranchRuns(Else, LaterCode(ids, next), env, kept);
      LaterRuns(ids, axe, next, env, vm);
    }
  }

  /** The one-tier upgrades of the host's recipe table, with exact burns and XP kept. */
  predicate CraftAccepted(env: Env, ids: InventoryIds) {
    match AxeAt(env, OfInput(0))
    case None => false
    case Some(axe) =>
      match axe.NextRecipe()
      case None => false
      case Some(recipe) =>
        AxeAt(env, OfOutput) == Some(recipe.axe) && Burns(env, ids.xp, 0) && Pays(env, ids, recipe)
  }

  /**
   The compiled recipe program runs on with an untouched stack exactly for one-tier upgrades that meet
   the inclusive XP threshold, keep XP and burn the recipe; every other transaction fails.
  */
  lemma RecipeRefinesHost(ids: InventoryIds, next: Code, env: Env, vm: Vm)
    requires Live(vm)
    ensures Exec(RecipeCode(ids, next), env, vm) == Exec(next, env, if CraftAccepted(env, ids) then vm else Halted)
  {
    hide Exec, Encode, BurnCode, AxeCode, UpgradeCode, BranchesCode, Burns, Pays, AxeAt;
    var branches := BranchesCode(ids, next);
    var axes := AxeCode(OfInput(0), UpgradeCode(branches));
    BurnRuns(ids.xp, 0, axes, env, vm);
    AxeRuns(OfInput(0), UpgradeCode(branches), env, vm);
    ExecHalted(axes, env);
    ExecHalted(UpgradeCode(branches), env);
    ExecHalted(branches, env);
    ExecHalted(next, env);
    match AxeAt(env, OfInput(0)) {
      case None =>
      case Some(axe) =>
        UpgradeRuns(axe, branches, env, vm);
        if axe != Iron { BranchesRun(ids, axe, next, env, vm); }
    }
  }

  // ----- the host builder -----

  datatype Inventory = Inventory(log: nat, xp: nat, stone: nat, ironOre: nat)

  datatype CraftError = HighestTier | XpTooLow | MissingIngredient(asset: AssetId)

  /** What the builder attaches: the asset packet and the next player packets. */
  datatype CraftTransaction = CraftTransaction(groups: seq<AssetGroup>, next: PlayerState)

  /** One inventory asset of the state and what the recipe takes of it. */
  datatype Carry = Carry(asset: AssetId, before: nat, cost: nat)

  predicate Covered(carried: seq<Carry>) {
    forall c <- carried :: c.cost <= c.before
  }

  /** One carried asset: present only if the state holds some, its output only if some remains. */
  function CarryGroup(from: nat, c: Carry): seq<AssetGroup>
    requires c.cost <= c.before
  {
    if c.before == 0 then []
    else [AssetGroup(c.asset, [(from, c.before)], if c.before == c.cost then [] else [(0, c.before - c.cost)])]
  }

  function CarryGroups(from: nat, carried: seq<Carry>): seq<AssetGroup>
    requires Covered(carried)
  {
    if carried == [] then [] else CarryGroup(from, carried[0]) + CarryGroups(from, carried[1..])
  }

  function MarkerGroup(from: nat, marker: AssetId): AssetGroup { AssetGroup(marker, [(from, 1)], [(0, 1)]) }

  function RecipeCarries(ids: InventoryIds, recipe: AxeRecipe, held: Inventory): seq<Carry> {
    [Carry(ids.log, held.log, recipe.logCost), Carry(ids.xp, held.xp, 0),
     Carry(ids.stone, held.stone, recipe.stoneCost), Carry(ids.ironOre, held.ironOre, recipe.ironOreCost)]
  }

  predicate CanCraft(state: PlayerState, held: Inventory) {
    match state.axe.NextRecipe()
    case None => false
    case Some(recipe) =>
      && held.xp >= RequiredXp(recipe.axe)
      && held.log >= recipe.logCost && held.stone >= recipe.stoneCost && held.ironOre >= recipe.ironOreCost
  }

  function Crafted(player: AssetId, ids: InventoryIds, state: PlayerState, held: Inventory): CraftTransaction
    requires CanCraft(state, held)
  {
    var recipe := state.axe.NextRecipe().value;
    CraftTransaction([MarkerGroup(0, player)] + CarryGroups(0, RecipeCarries(ids, recipe, held)),
                     PlayerState(state.luck, recipe.axe))
  }

  predicate Lacks(needs: seq<Carry>, i: nat)
    requires i < |needs|
  {
    needs[i].before < needs[i].cost && Covered(needs[..i])
  }

  /** The first ingredient the state lacks, if any. */
  method FindMissing(needs: seq<Carry>) returns (missing: Option<AssetId>)
    ensures missing.None? <==> Covered(needs)
    ensures missing.Some? ==> exists i :: 0 <= i < |needs| && Lacks(needs, i) && missing.value == needs[i].asset
  {
    for i := 0 to |needs|
      invariant Covered(needs[..i])
    {
      if needs[i].before < needs[i].cost {
        assert Lacks(needs, i);
        return Some(needs[i].asset);
      }
    }
    assert needs[..|needs|] == needs;
    return None;
  }

  method AttachGroups(marker: AssetGroup, carried: seq<Carry>) returns (groups: seq<AssetGroup>)
    requires Covered(carried)
    ensures groups == [marker] + CarryGroups(0, carried)
  {
    groups := [marker];
    for i := 0 to |carried|
      invariant groups + CarryGroups(0, carried[i..]) == [marker] + CarryGroups(0, carried)
    {
      var c := carried[i];
      if c.before == 0 { continue; }
      var group := AssetGroup(c.asset, [(0, c.before)], if c.before == c.cost then [] else [(0, c.before - c.cost)]);
      assert CarryGroups(0, carried[i..]) == [group] + CarryGroups(0, carried[i + 1..]);
      groups := groups + [group];
    }
  }

  method PrepareCraft(player: AssetId, ids: InventoryIds, state: PlayerState, held: Inventory)
    returns (r: Result<CraftTransaction, CraftError>)
    ensures r.Ok? <==> CanCraft(state, held)
    ensures r.Ok? ==> r.value == Crafted(player, ids, state, held)
    ensures r.Err? && r.error.HighestTier? <==> state.axe == Iron
    ensures r.Err? && r.error.XpTooLow? <==> state.axe != Iron && held.xp < RequiredXp(state.axe.NextRecipe().value.axe)
    ensures r.Err? && r.error.MissingIngredient? ==>
              var recipe := state.axe.NextRecipe().value;
              r.error.asset == if held.log < recipe.logCost then ids.log
                               else if held.stone < recipe.stoneCost then ids.stone else ids.ironOre
  {
    var next := state.axe.NextRecipe();
    RecipeRequirements(state.axe);
    if next.None? { return Err(HighestTier); }
    var recipe := next.value;
    if held.xp < recipe.RequiredXpBalance() { return Err(XpTooLow); }
    var carried := RecipeCarries(ids, recipe, held);
    var needs := [carried[0], carried[2], carried[3]];
    var missing := FindMissing(needs);
    assert needs[..1] == [carried[0]] && needs[..2] == [carried[0], carried[2]];
    if missing.Some? { return Err(MissingIngredient(missing.value)); }
    var groups := AttachGroups(MarkerGroup(0, player), carried);
    return Ok(CraftTransaction(groups, PlayerState(state.luck, recipe.axe)));
  }

  predicate DistinctCarries(carried: seq<Carry>) {
    forall i, j :: 0 <= i < j < |carried| ==> carried[i].asset != carried[j].asset
  }

  lemma {:induction false} FoundAfter(prefix: seq<AssetGroup>, rest: seq<AssetGroup>, asset: AssetId)
    requires forall g <- prefix :: g.asset != asset
    ensures FindGroup(prefix + rest, asset) == FindGroup(rest, asset)
  {
    if prefix == [] {
      assert prefix + rest == rest;
    } else {
      assert (prefix + rest)[1..] == prefix[1..] + rest;
      FoundAfter(prefix[1..], rest, asset);
    }
  }

  lemma {:induction false} CarryGroupFound(from: nat, carried: seq<Carry>, k: nat)
    requires Covered(carried) && DistinctCarries(carried) && k < |carried|
    ensures FindGroup(CarryGroups(from, carried), carried[k].asset)
         == if carried[k].before == 0 then None else Some(CarryGroup(from, carried[k])[0])
  {
    var (head, rest) := (CarryGroup(from, carried[0]), CarryGroups(from, carried[1..]));
    if k > 0 {
      FoundAfter(head, rest, carried[k].asset);
      CarryGroupFound(from, carried[1..], k - 1);
    } else if carried[0].before == 0 {
      assert head + rest == rest;
      NotCarried(from, carried[1..], carried[0].asset);
    }
  }

  lemma {:induction false} NotCarried(from: nat, carried: seq<Carry>, asset: AssetId)
    requires Covered(carried) && forall c <- carried :: c.asset != asset
    ensures FindGroup(CarryGroups(from, carried), asset) == None
  {
    if carried != [] {
      NotCarried(from, carried[1..], asset);
      var all := CarryGroups(from, carried);
      if carried[0].before != 0 { assert all[1..] == CarryGroups(from, carried[1..]); }
      else { assert all == CarryGroups(from, carried[1..]); }
    }
  }

  /** The balances a covenant reads from a packet with carried assets. */
  lemma CarriedAmounts(env: Env, from: nat, prefix: seq<AssetGroup>, carried: seq<Carry>, k: nat)
    requires Covered(carried) && DistinctCarries(carried) && k < |carried|
    requires env.groups == prefix + CarryGroups(from, carried)
    requires forall g <- prefix :: g.asset != carried[k].asset
    ensures Held(env, Input(from), carried[k].asset) == carried[k].before
    ensures Held(env, Output(0), carried[k].asset) == carried[k].before - carried[k].cost
    ensures carried[k].cost == 0 ==>
              AmountAt(env, Output(0), carried[k].asset) == AmountAt(env, Input(from), carried[k].asset)
  {
    FoundAfter(prefix, CarryGroups(from, carried), carried[k].asset);
    CarryGroupFound(from, carried, k);
  }

  /** Every transaction the host builds satisfies the compiled recipe program. */
  lemma BuiltCraftAccepted(env: Env, player: AssetId, ids: InventoryIds, state: PlayerState, held: Inventory)
    requires ids.Distinct() && player !in {ids.log, ids.xp, ids.stone, ids.ironOre}
    requires CanCraft(state, held)
    requires env.groups == Crafted(player, ids, state, held).groups
    requires AxeAt(env, OfInput(0)) == Some(state.axe)
    requires AxeAt(env, OfOutput) == Some(Crafted(player, ids, state, held).next.axe)
    ensures CraftAccepted(env, ids)
  {
    hide CarryGroups, AmountAt, AxeAt;
    RecipeRequirements(state.axe);
    var carried := RecipeCarries(ids, state.axe.NextRecipe().value, held);
    CarriedAmounts(env, 0, [MarkerGroup(0, player)], carried, 0);
    CarriedAmounts(env, 0, [MarkerGroup(0, player)], carried, 1);
    CarriedAmounts(env, 0, [MarkerGroup(0, player)], carried, 2);
    CarriedAmounts(env, 0, [MarkerGroup(0, player)], carried, 3);
  }

  /** Conversely, whatever craft the covenant accepts is one the host could build, with the same balances. */
  lemma AcceptedCraftIsBuildable(env: Env, ids: InventoryIds, state: PlayerState, held: Inventory)
    requires CraftAccepted(env, ids) && AxeAt(env, OfInput(0)) == Some(state.axe)
    requires Held(env, Input(0), ids.log) == held.log && Held(env, Input(0), ids.xp) == held.xp
    requires Held(env, Input(0), ids.stone) == held.stone && Held(env, Input(0), ids.ironOre) == held.ironOre
    ensures CanCraft(state, held)
    ensures var recipe := state.axe.NextRecipe().value;
            && AxeAt(env, OfOutput) == Some(recipe.axe)
            && Held(env, Output(0), ids.log) == held.log - recipe.logCost
            && Held(env, Output(0), ids.xp) == held.xp
            && Held(env, Output(0), ids.stone) == held.stone - recipe.stoneCost
            && Held(env, Output(0), ids.ironOre) == held.ironOre - recipe.ironOreCost
  {
    RecipeRequirements(state.axe);
  }
}
