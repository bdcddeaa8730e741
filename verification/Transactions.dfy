/** The host's chop, withdrawal and renewal builders, and why the covenants accept what they build. */
module Transactions {
  import opened Common
  import opened ScriptMachine
  import opened PlayerRules
  import opened CovenantFragments
  import opened PlayerCovenant
  import opened CraftCovenant
  import opened ChopCovenant
  import opened StateCovenants
  import opened CovenantPaths

  /** A tree's health and its local reserves. */
  datatype Tree = Tree(health: nat, reserve: Inventory)

  /** A player's packets and the balances its state holds. */
  datatype Player = Player(state: PlayerState, held: Inventory)

  // ----- chop -----

  datatype ChopError = NoLog | NoXp | NoStone | NoIronOre | Stump

  datatype ChopResult = ChopResult(player: Player, tree: Tree, success: bool, material: Material)

  function MaterialUnits(material: Material): (nat, nat) {
    (if material.StoneDrop? then 1 else 0, if material.IronOreDrop? then 1 else 0)
  }

  /** `prepare_chop`: reserve checks, then the exact balances after the swing. */
  function PrepareChop(sha: Sha, player: Player, tree: Tree): Result<ChopResult, ChopError> {
    if tree.reserve.log == 0 then Err(NoLog)
    else if tree.reserve.xp == 0 then Err(NoXp)
    else if tree.reserve.stone == 0 then Err(NoStone)
    else if tree.reserve.ironOre == 0 then Err(NoIronOre)
    else if tree.health == 0 then Err(Stump)
    else
      var reward := Advance(sha, player.state.luck, player.held.xp, player.state.axe);
      var unit := if reward.success then 1 else 0;
      var material := MaterialDrop(sha, reward.next.roll, player.held.xp, reward.success);
      var (stone, ore) := MaterialUnits(material);
      var held := player.held;
      var reserve := tree.reserve;
      Ok(ChopResult(
        Player(PlayerState(reward.next, player.state.axe),
               Inventory(held.log + unit, held.xp + unit, held.stone + stone, held.ironOre + ore)),
        Tree(tree.health - unit,
             Inventory(reserve.log - unit, reserve.xp - unit, reserve.stone - stone, reserve.ironOre - ore)),
        reward.success, material))
  }

  function OptionalEntry(index: nat, amount: nat): seq<(nat, nat)> { if amount > 0 then [(index, amount)] else [] }

  /** `player_tree_transfer_group`. */
  function TransferGroup(asset: AssetId, playerBefore: nat, treeBefore: nat, playerAfter: nat, treeAfter: nat): AssetGroup {
    AssetGroup(asset, OptionalEntry(0, playerBefore) + [(1, treeBefore)],
               OptionalEntry(0, playerAfter) + OptionalEntry(1, treeAfter))
  }

  function ChopGroups(player: AssetId, tree: AssetId, ids: InventoryIds, before: (Player, Tree), after: (Player, Tree))
    : seq<AssetGroup>
  {
    var (p, t) := (before.0.held, before.1.reserve);
    var (q, u) := (after.0.held, after.1.reserve);
    [MarkerGroup(0, player), AssetGroup(tree, [(1, 1)], [(1, 1)]),
     TransferGroup(ids.log, p.log, t.log, q.log, u.log), TransferGroup(ids.xp, p.xp, t.xp, q.xp, u.xp),
     TransferGroup(ids.stone, p.stone, t.stone, q.stone, u.stone),
     TransferGroup(ids.ironOre, p.ironOre, t.ironOre, q.ironOre, u.ironOre)]
  }

  predicate DistinctGroups(groups: seq<AssetGroup>) {
    forall i, j :: 0 <= i < j < |groups| ==> groups[i].asset != groups[j].asset
  }

  lemma {:induction false} GroupFound(groups: seq<AssetGroup>, k: nat)
    requires DistinctGroups(groups) && k < |groups|
    ensures FindGroup(groups, groups[k].asset) == Some(groups[k])
  {
    if k > 0 { GroupFound(groups[1..], k - 1); }
  }

  /** The amounts a transfer group assigns. */
  lemma TransferAmounts(env: Env, k: nat, asset: AssetId, pb: nat, tb: nat, pa: nat, ta: nat)
    requires DistinctGroups(env.groups) && k < |env.groups|
    requires env.groups[k] == TransferGroup(asset, pb, tb, pa, ta)
    ensures AmountAt(env, Input(0), asset) == if pb > 0 then Some(pb) else None
    ensures AmountAt(env, Input(1), asset) == Some(tb)
    ensures Held(env, Output(0), asset) == pa && Held(env, Output(1), asset) == ta
    ensures AmountAt(env, Output(0), asset).Some? <==> pa > 0
  {
    GroupFound(env.groups, k);
    var g := env.groups[k];
    assert Assigned([(1, tb)], 1) == Some(tb) && Assigned([(1, tb)], 0) == None;
    if pb > 0 { assert g.inputs[1..] == [(1, tb)]; } else { assert g.inputs == [(1, tb)]; }
    assert Assigned(OptionalEntry(1, ta), 1) == if ta > 0 then Some(ta) else None;
    assert Assigned(OptionalEntry(1, ta), 0) == None;
    if pa > 0 { assert g.outputs[1..] == OptionalEntry(1, ta); } else { assert g.outputs == OptionalEntry(1, ta); }
  }

  function Entries(g: AssetGroup, side: Side): seq<(nat, nat)> { if side.Input? then g.inputs else g.outputs }

  /** One if the group assigns its asset at that side. */
  function AssignsAt(g: AssetGroup, side: Side): nat { if Assigned(Entries(g, side), side.index).Some? then 1 else 0 }

  function CountFrom(groups: seq<AssetGroup>, side: Side): nat {
    if side.Input? then InputCount(groups, side.index) else OutputCount(groups, side.index)
  }

  lemma CountStep(groups: seq<AssetGroup>, k: nat, side: Side)
    requires k < |groups|
    ensures CountFrom(groups[k..], side) == AssignsAt(groups[k], side) + CountFrom(groups[k + 1..], side)
  {
    assert groups[k..][1..] == groups[k + 1..];
  }

  lemma CountSix(env: Env, side: Side)
    requires |env.groups| == 6
    ensures var g := env.groups;
            AssetCount(env, side) == AssignsAt(g[0], side) + AssignsAt(g[1], side) + AssignsAt(g[2], side)
                                     + AssignsAt(g[3], side) + AssignsAt(g[4], side) + AssignsAt(g[5], side)
  {
    hide AssignsAt;
    var g := env.groups;
    CountStep(g, 0, side);
    CountStep(g, 1, side);
    CountStep(g, 2, side);
    CountStep(g, 3, side);
    CountStep(g, 4, side);
    CountStep(g, 5, side);
    assert g[0..] == g && g[6..] == [];
  }

  lemma PresentIsAssigned(env: Env, k: nat, side: Side)
    requires DistinctGroups(env.groups) && k < |env.groups|
    ensures Present(env, side, env.groups[k].asset) == AssignsAt(env.groups[k], side)
  {
    GroupFound(env.groups, k);
  }

  /** Everything about one chop transaction the covenants read. */
  predicate ShowsChop(env: Env, player: AssetId, tree: AssetId, ids: InventoryIds, before: (Player, Tree), after: (Player, Tree)) {
    && env.groups == ChopGroups(player, tree, ids, before, after)
    && StateAt(env, OfInput(0)) == Some(before.0.state) && StateAt(env, OfOutput) == Some(after.0.state)
    && HealthAt(env, OfInput(1)) == Some(before.1.health) && HealthAt(env, OfOutput) == Some(after.1.health)
  }

  predicate DistinctAssets(player: AssetId, tree: AssetId, ids: InventoryIds) {
    && ids.Distinct() && player != tree
    && player !in {ids.log, ids.xp, ids.stone, ids.ironOre} && tree !in {ids.log, ids.xp, ids.stone, ids.ironOre}
  }

  lemma ChopAmounts(env: Env, player: AssetId, tree: AssetId, ids: InventoryIds, before: (Player, Tree), after: (Player, Tree))
    requires DistinctAssets(player, tree, ids)
    requires env.groups == ChopGroups(player, tree, ids, before, after)
    ensures AmountAt(env, Input(1), tree) == Some(1) && AmountAt(env, Output(1), tree) == Some(1)
    ensures InventoryAt(env, Input(0), ids) == before.0.held && InventoryAt(env, Output(0), ids) == after.0.held
    ensures InventoryAt(env, Input(1), ids) == before.1.reserve && InventoryAt(env, Output(1), ids) == after.1.reserve
    ensures OnlyInventory(env, Input(0), ids) && OnlyInventory(env, Output(0), ids)
  {
    hide AmountAt, OnlyInventory, DistinctGroups;
    ChopGroupsDiffer(player, tree, ids, before, after);
    UnitAmounts(env, 1, tree);
    var (p, t) := (before.0.held, before.1.reserve);
    var (q, u) := (after.0.held, after.1.reserve);
    TransferAmounts(env, 2, ids.log, p.log, t.log, q.log, u.log);
    TransferAmounts(env, 3, ids.xp, p.xp, t.xp, q.xp, u.xp);
    TransferAmounts(env, 4, ids.stone, p.stone, t.stone, q.stone, u.stone);
    TransferAmounts(env, 5, ids.ironOre, p.ironOre, t.ironOre, q.ironOre, u.ironOre);
    ChopCounts(env, player, tree, ids, before, after);
  }

  lemma UnitAmounts(env: Env, k: nat, asset: AssetId)
    requires DistinctGroups(env.groups) && k < |env.groups| && env.groups[k] == AssetGroup(asset, [(1, 1)], [(1, 1)])
    ensures AmountAt(env, Input(1), asset) == Some(1) && AmountAt(env, Output(1), asset) == Some(1)
  {
    GroupFound(env.groups, k);
  }

  lemma ChopGroupsDiffer(player: AssetId, tree: AssetId, ids: InventoryIds, before: (Player, Tree), after: (Player, Tree))
    requires DistinctAssets(player, tree, ids)
    ensures DistinctGroups(ChopGroups(player, tree, ids, before, after))
  {}

  lemma ChopCounts(env: Env, player: AssetId, tree: AssetId, ids: InventoryIds, before: (Player, Tree), after: (Player, Tree))
    requires DistinctAssets(player, tree, ids)
    requires env.groups == ChopGroups(player, tree, ids, before, after)
    ensures OnlyInventory(env, Input(0), ids) && OnlyInventory(env, Output(0), ids)
  {
    ChopGroupsDiffer(player, tree, ids, before, after);
    InventoryCount(env, Input(0), ids);
    InventoryCount(env, Output(0), ids);
  }

  lemma InventoryCount(env: Env, side: Side, ids: InventoryIds)
    requires |env.groups| == 6 && DistinctGroups(env.groups)
    requires env.groups[2].asset == ids.log && env.groups[3].asset == ids.xp
    requires env.groups[4].asset == ids.stone && env.groups[5].asset == ids.ironOre
    requires Entries(env.groups[0], side) == [(0, 1)] && Entries(env.groups[1], side) == [(1, 1)] && side.index == 0
    ensures OnlyInventory(env, side, ids)
  {
    hide Present, AssetCount, DistinctGroups;
    CountSix(env, side);
    PresentIsAssigned(env, 2, side);
    PresentIsAssigned(env, 3, side);
    PresentIsAssigned(env, 4, side);
    PresentIsAssigned(env, 5, side);
    assert Assigned([(1, 1)], 0) == None && Assigned([(0, 1)], 0) == Some(1);
  }

  /** Every chop the host builds passes the compiled covenant. */
  lemma BuiltChopAccepted(env: Env, player: AssetId, tree: AssetId, ids: InventoryIds, p: Player, t: Tree)
    requires DistinctAssets(player, tree, ids) && PrepareChop(env.sha, p, t).Ok?
    requires var r := PrepareChop(env.sha, p, t).value;
             ShowsChop(env, player, tree, ids, (p, t), (r.player, r.tree))
    ensures ChopAccepted(env, tree, ids)
  {
    hide Advance, MaterialOf, BucketFold, HealthAt, StateAt, OnlyInventory, ChopGroups, AmountAt, ChopAccepted;
    var r := PrepareChop(env.sha, p, t).value;
    ChopAmounts(env, player, tree, ids, (p, t), (r.player, r.tree));
    assert Observed(env, tree, ids, r.success).value.Valid(env.sha);
    CovenantMatchesHostCheck(env, tree, ids);
  }

  /** Whatever chop the covenant accepts changes player and tree exactly as the host computes. */
  lemma AcceptedChopIsHostChop(env: Env, tree: AssetId, ids: InventoryIds, p: Player, t: Tree)
    requires ChopAccepted(env, tree, ids)
    requires StateAt(env, OfInput(0)) == Some(p.state) && InventoryAt(env, Input(0), ids) == p.held
    requires HealthAt(env, OfInput(1)) == Some(t.health) && InventoryAt(env, Input(1), ids) == t.reserve
    ensures PrepareChop(env.sha, p, t).Ok?
    ensures var r := PrepareChop(env.sha, p, t).value;
            && StateAt(env, OfOutput) == Some(r.player.state) && InventoryAt(env, Output(0), ids) == r.player.held
            && HealthAt(env, OfOutput) == Some(r.tree.health) && InventoryAt(env, Output(1), ids) == r.tree.reserve
  {
    hide Advance, MaterialOf, BucketFold, HealthAt, StateAt, OnlyInventory;
    CovenantMatchesHostCheck(env, tree, ids);
  }

  // ----- withdrawal -----

  datatype WithdrawError = ZeroAmount | ExceedsBalance

  function Soulbound(ids: InventoryIds, held: Inventory): seq<Carry> {
    [Carry(ids.xp, held.xp, 0), Carry(ids.stone, held.stone, 0), Carry(ids.ironOre, held.ironOre, 0)]
  }

  /** `prepare_withdraw`: LOG leaves through output one, everything else stays at output zero. */
  function PrepareWithdraw(player: AssetId, ids: InventoryIds, held: Inventory, amount: nat)
    : Result<seq<AssetGroup>, WithdrawError>
  {
    if amount == 0 then Err(ZeroAmount)
    else if amount > held.log then Err(ExceedsBalance)
    else Ok([MarkerGroup(0, player), LeavingGroup(ids.log, held.log, amount)] + CarryGroups(0, Soulbound(ids, held)))
  }

  function LeavingGroup(log: AssetId, logs: nat, amount: nat): AssetGroup
    requires amount <= logs
  {
    AssetGroup(log, [(0, logs)], OptionalEntry(0, logs - amount) + [(1, amount)])
  }

  /** Every withdrawal the host builds passes the covenant, and moves exactly the amount asked for. */
  lemma BuiltWithdrawAccepted(env: Env, player: AssetId, ids: InventoryIds, held: Inventory, amount: nat)
    requires ids.Distinct() && player !in {ids.log, ids.xp, ids.stone, ids.ironOre}
    requires PrepareWithdraw(player, ids, held, amount) == Ok(env.groups)
    ensures WithdrawAccepted(env, ids) && Held(env, Output(1), ids.log) == amount
  {
    hide CarryGroups;
    var leaving := LeavingGroup(ids.log, held.log, amount);
    var prefix := [MarkerGroup(0, player), leaving];
    var carried := Soulbound(ids, held);
    CarriedAmounts(env, 0, prefix, carried, 0);
    CarriedAmounts(env, 0, prefix, carried, 1);
    CarriedAmounts(env, 0, prefix, carried, 2);
    SecondGroupFound(env.groups, leaving);
    assert Assigned([(1, amount)], 1) == Some(amount) && Assigned([(1, amount)], 0) == None;
    if held.log > amount { assert leaving.outputs[1..] == [(1, amount)]; } else { assert leaving.outputs == [(1, amount)]; }
  }

  lemma SecondGroupFound(groups: seq<AssetGroup>, g: AssetGroup)
    requires |groups| >= 2 && groups[1] == g && groups[0].asset != g.asset
    ensures FindGroup(groups, g.asset) == Some(g)
  {
    assert groups[1..][0] == g;
  }

  /** Whatever withdrawal the covenant accepts only moves LOG out of the state. */
  lemma AcceptedWithdrawalMovesLog(env: Env, ids: InventoryIds)
    requires WithdrawAccepted(env, ids)
    ensures var (before, after) := (InventoryAt(env, Input(0), ids), InventoryAt(env, Output(0), ids));
            var amount := Held(env, Output(1), ids.log);
            amount <= before.log && after == before.(log := before.log - amount)
  {
    var kept := [ids.xp, ids.stone, ids.ironOre];
    assert kept[0] in kept && kept[1] in kept && kept[2] in kept;
    assert Unchanged(env, 0, 0, ids.xp) && Unchanged(env, 0, 0, ids.stone) && Unchanged(env, 0, 0, ids.ironOre);
  }

  // ----- renewal -----

  function Everything(ids: InventoryIds, held: Inventory): seq<Carry> {
    [Carry(ids.log, held.log, 0)] + Soulbound(ids, held)
  }

  function RenewalGroups(marker: AssetId, ids: InventoryIds, held: Inventory): seq<AssetGroup> {
    [MarkerGroup(1, marker)] + CarryGroups(1, Everything(ids, held))
  }

  datatype RenewalError = NotCanonical

  datatype TreeRenewal = TreeRenewal(groups: seq<AssetGroup>, health: nat, regrowth: bool)

  /** `prepare_tree`: a stump with LOG left takes the regrowth path; `markers`, `foreign` and `valued` say what else the record holds. */
  function PrepareTree(tree: AssetId, ids: InventoryIds, t: Tree, markers: nat, foreign: bool, valued: bool)
    : Result<TreeRenewal, RenewalError>
  {
    var regrowth := t.health == 0 && t.reserve.log > 0;
    if markers != 1 || foreign || t.reserve.log != t.reserve.xp || t.health > t.reserve.log || !valued then Err(NotCanonical)
    else Ok(TreeRenewal(RenewalGroups(tree, ids, t.reserve), if regrowth then LOGS_PER_TREE else t.health, regrowth))
  }

  /** Exactly a record of one marker, no foreign asset and the tree's value, with LOG and XP alike and covering health, is renewed. */
  lemma RenewedTreesAreCanonical(tree: AssetId, ids: InventoryIds, t: Tree, markers: nat, foreign: bool, valued: bool)
    ensures PrepareTree(tree, ids, t, markers, foreign, valued).Ok? <==>
              markers == 1 && !foreign && valued && t.health <= t.reserve.log == t.reserve.xp
    ensures PrepareTree(tree, ids, t, markers, foreign, valued).Ok? ==>
              var r := PrepareTree(tree, ids, t, markers, foreign, valued).value;
              if t.health == 0 && t.reserve.xp > 0 then r.regrowth && r.health == 10 else !r.regrowth && r.health == t.health
  {}

  lemma MarkerAmounts(env: Env, marker: AssetId)
    requires |env.groups| > 0 && env.groups[0] == MarkerGroup(1, marker)
    ensures AmountAt(env, Input(1), marker) == Some(1) && AmountAt(env, Output(0), marker) == Some(1)
  {}

  lemma RenewalKeepsEverything(env: Env, marker: AssetId, ids: InventoryIds, held: Inventory)
    requires ids.Distinct() && marker !in {ids.log, ids.xp, ids.stone, ids.ironOre}
    requires env.groups == RenewalGroups(marker, ids, held)
    ensures AllUnchanged(env, 1, 0, [ids.log, ids.xp, ids.stone, ids.ironOre])
    ensures InventoryAt(env, Input(1), ids) == held
    ensures AmountAt(env, Input(1), marker) == Some(1) && AmountAt(env, Output(0), marker) == Some(1)
  {
    hide CarryGroups, AmountAt, Assigned;
    var carried := Everything(ids, held);
    var prefix := [MarkerGroup(1, marker)];
    MarkerAmounts(env, marker);
    CarriedAmounts(env, 1, prefix, carried, 0);
    CarriedAmounts(env, 1, prefix, carried, 1);
    CarriedAmounts(env, 1, prefix, carried, 2);
    CarriedAmounts(env, 1, prefix, carried, 3);
  }

  /** Every tree renewal the host builds passes the covenant of the path it chose. */
  lemma BuiltTreeRenewalAccepted(env: Env, tree: AssetId, ids: InventoryIds, t: Tree)
    requires ids.Distinct() && tree !in {ids.log, ids.xp, ids.stone, ids.ironOre}
    requires PrepareTree(tree, ids, t, 1, false, true).Ok?
    requires var r := PrepareTree(tree, ids, t, 1, false, true).value;
             env.groups == r.groups && HealthAt(env, OfInput(1)) == Some(t.health) && HealthAt(env, OfOutput) == Some(r.health)
    ensures if PrepareTree(tree, ids, t, 1, false, true).value.regrowth then RegrowthAccepted(env, tree, ids)
            else MaintenanceAccepted(env, tree, ids)
  {
    hide HealthAt;
    RenewalKeepsEverything(env, tree, ids, t.reserve);
  }

  lemma UnchangedInventory(env: Env, ids: InventoryIds)
    requires AllUnchanged(env, 1, 0, [ids.log, ids.xp, ids.stone, ids.ironOre])
    ensures InventoryAt(env, Output(0), ids) == InventoryAt(env, Input(1), ids)
  {
    var kept := [ids.log, ids.xp, ids.stone, ids.ironOre];
    assert kept[0] in kept && kept[1] in kept && kept[2] in kept && kept[3] in kept;
    assert Unchanged(env, 1, 0, ids.log) && Unchanged(env, 1, 0, ids.xp);
    assert Unchanged(env, 1, 0, ids.stone) && Unchanged(env, 1, 0, ids.ironOre);
  }

  /** Whatever either renewal path accepts keeps every reserve; only regrowth changes health, from stump to full. */
  lemma AcceptedTreeRenewal(env: Env, tree: AssetId, ids: InventoryIds, t: Tree, regrowth: bool)
    requires if regrowth then RegrowthAccepted(env, tree, ids) else MaintenanceAccepted(env, tree, ids)
    requires HealthAt(env, OfInput(1)) == Some(t.health) && InventoryAt(env, Input(1), ids) == t.reserve
    ensures InventoryAt(env, Output(0), ids) == t.reserve
    ensures regrowth ==> t.health == 0 && t.reserve.log > 0
    ensures HealthAt(env, OfOutput) == Some(if regrowth then LOGS_PER_TREE else t.health)
  {
    hide HealthAt, AllUnchanged, AmountAt;
    UnchangedInventory(env, ids);
  }

  // ----- whole paths -----

  /** What every builder attaches to a player's transaction: both states, and the player's own lock and value again. */
  predicate Attached(env: Env, input: nat, dust: nat, before: PlayerState, after: PlayerState) {
    StateAt(env, OfInput(input)) == Some(before) && StateAt(env, OfOutput) == Some(after) && Relocked(env, input, 0, dust)
  }

  /** A state whose axe is earned, and that is as activated when it is spent for the first time. */
  predicate Spendable(env: Env, input: nat, xp: AssetId, state: PlayerState) {
    && HasOrigin(env, input) && Held(env, Input(input), xp) >= RequiredXp(state.axe)
    && (FirstSpend(env, input) ==>
          ProgramAt(env, Input(input)).Some? && state == Activated(env.sha, ProgramAt(env, Input(input)).value))
  }

  /** The state `prepare_activation` attaches: the roll seeded by the player's program, the initial credit, no axe. */
  function Activated(sha: Sha, program: Bytes): PlayerState {
    PlayerState(Luck(InitialRoll(sha, program), INITIAL_LUCK_CREDIT), NoAxe)
  }

  lemma SpendableIsSeeded(env: Env, input: nat, xp: AssetId, state: PlayerState)
    requires StateAt(env, OfInput(input)) == Some(state)
    ensures Spendable(env, input, xp, state) <==> Seeded(env, input, xp)
  {
    hide AmountAt, DecodeAxe, DecodeCredit;
  }

  /** A transaction that carries a player's state over, spending an output of `spent`. */
  function PlayerEnv(sha: Sha, groups: seq<AssetGroup>, input: nat, state: PlayerState, program: Bytes, dust: nat, spent: Digest): Env {
    var (roll, credit, axe) := (state.luck.roll, EncodeCredit(state.luck.credit), [state.axe.Tier()]);
    Env(sha, groups,
        map[(PLAYER_ROLL_PACKET_TYPE, input) := roll, (PLAYER_LUCK_CREDIT_PACKET_TYPE, input) := credit, (PLAYER_AXE_PACKET_TYPE, input) := axe],
        map[PLAYER_ROLL_PACKET_TYPE := roll, PLAYER_LUCK_CREDIT_PACKET_TYPE := credit, PLAYER_AXE_PACKET_TYPE := axe],
        map[input := program], map[0 := program], map[0 := dust, 1 := dust], map[0 := dust, 1 := dust],
        map[input := (spent, 0)], (_, _, _) => false)
  }

  lemma PlayerEnvShows(sha: Sha, groups: seq<AssetGroup>, input: nat, state: PlayerState, program: Bytes, dust: nat, spent: Digest)
    requires input <= 1
    ensures var env := PlayerEnv(sha, groups, input, state, program, dust, spent);
            && StateAt(env, OfInput(input)) == Some(state) && StateAt(env, OfOutput) == Some(state)
            && Relocked(env, input, 0, dust) && SameValue(env, Output(1), Input(1))
            && SamePackets(env, PLAYER_PACKETS, input)
  {
    hide DecodeCredit, DecodeAxe, EncodeCredit;
    CreditPacket(EncodeCredit(state.luck.credit), state.luck.credit);
    AxePacket([state.axe.Tier()], state.axe);
  }

  /** Every craft the host builds passes the whole covenant. */
  lemma BuiltCraftPathAccepted(env: Env, player: AssetId, ids: InventoryIds, dust: nat, state: PlayerState, held: Inventory)
    requires ids.Distinct() && player !in {ids.log, ids.xp, ids.stone, ids.ironOre} && CanCraft(state, held)
    requires env.groups == Crafted(player, ids, state, held).groups
    requires Attached(env, 0, dust, state, Crafted(player, ids, state, held).next) && Spendable(env, 0, ids.xp, state)
    ensures CraftPathAccepted(env, ids, dust)
  {
    hide Crafted, CraftAccepted, OnlyInventory, Relocked, Spendable, Seeded, CanCraft, SamePacket, PacketAt, DecodeAxe, DecodeCredit;
    var next := Crafted(player, ids, state, held).next;
    CraftKeepsLuck(player, ids, state, held);
    BuiltCraftAccepted(env, player, ids, state, held);
    SpendableIsSeeded(env, 0, ids.xp, state);
    SameLuckSamePackets(env, 0);
    CraftCounts(env, player, ids, state, held);
  }

  lemma CraftKeepsLuck(player: AssetId, ids: InventoryIds, state: PlayerState, held: Inventory)
    requires CanCraft(state, held)
    ensures Crafted(player, ids, state, held).next.luck == state.luck
  {}

  lemma CraftCounts(env: Env, player: AssetId, ids: InventoryIds, state: PlayerState, held: Inventory)
    requires ids.Distinct() && player !in {ids.log, ids.xp, ids.stone, ids.ironOre} && CanCraft(state, held)
    requires env.groups == Crafted(player, ids, state, held).groups
    ensures OnlyInventory(env, Input(0), ids) && OnlyInventory(env, Output(0), ids)
  {
    var carried := RecipeCarries(ids, state.axe.NextRecipe().value, held);
    RecipeRequirements(state.axe);
    CarriedCounts(env, player, carried, Input(0));
    CarriedCounts(env, player, carried, Output(0));
  }

  /** Whether a carried asset is assigned on one side of the transaction. */
  function Carried(c: Carry, side: Side): nat { if (if side.Input? then c.before else c.before - c.cost) > 0 then 1 else 0 }

  function SumCarried(carried: seq<Carry>, side: Side): nat {
    if carried == [] then 0 else Carried(carried[0], side) + SumCarried(carried[1..], side)
  }

  lemma {:induction false} CountCarried(carried: seq<Carry>, side: Side)
    requires Covered(carried) && side.index == 0
    ensures CountFrom(CarryGroups(0, carried), side) == SumCarried(carried, side)
  {
    if carried != [] {
      CountCarried(carried[1..], side);
      var all := CarryGroups(0, carried);
      if carried[0].before != 0 { assert all[1..] == CarryGroups(0, carried[1..]); }
      else { assert all == CarryGroups(0, carried[1..]); }
    }
  }

  lemma CarriedCounts(env: Env, player: AssetId, carried: seq<Carry>, side: Side)
    requires Covered(carried) && DistinctCarries(carried) && |carried| == 4 && side.index == 0
    requires forall c <- carried :: c.asset != player
    requires env.groups == [MarkerGroup(0, player)] + CarryGroups(0, carried)
    ensures AssetCount(env, side) == 1 + Present(env, side, carried[0].asset) + Present(env, side, carried[1].asset)
                                       + Present(env, side, carried[2].asset) + Present(env, side, carried[3].asset)
  {
    hide CarryGroups, Carried, Present, DistinctCarries;
    var prefix := [MarkerGroup(0, player)];
    assert env.groups[1..] == CarryGroups(0, carried);
    CountCarried(carried, side);
    SumOfFour(carried, side);
    CarriedPresent(env, prefix, carried, 0, side);
    CarriedPresent(env, prefix, carried, 1, side);
    CarriedPresent(env, prefix, carried, 2, side);
    CarriedPresent(env, prefix, carried, 3, side);
  }

  lemma SumOfFour(carried: seq<Carry>, side: Side)
    requires |carried| == 4
    ensures SumCarried(carried, side)
         == Carried(carried[0], side) + Carried(carried[1], side) + Carried(carried[2], side) + Carried(carried[3], side)
  {
    hide Carried;
    var (second, third, fourth) := (carried[1..], carried[2..], carried[3..]);
    assert second[1..] == third && third[1..] == fourth && fourth[1..] == [];
    assert SumCarried(fourth, side) == Carried(fourth[0], side);
    assert SumCarried(third, side) == Carried(third[0], side) + SumCarried(fourth, side);
  }

  lemma CarriedPresent(env: Env, prefix: seq<AssetGroup>, carried: seq<Carry>, k: nat, side: Side)
    requires Covered(carried) && DistinctCarries(carried) && k < |carried| && side.index == 0
    requires env.groups == prefix + CarryGroups(0, carried) && forall g <- prefix :: g.asset != carried[k].asset
    ensures Present(env, side, carried[k].asset) == Carried(carried[k], side)
  {
    FoundAfter(prefix, CarryGroups(0, carried), carried[k].asset);
    CarryGroupFound(0, carried, k);
  }

  /** Every withdrawal the host builds passes the whole covenant. */
  lemma BuiltWithdrawPathAccepted(env: Env, player: AssetId, ids: InventoryIds, dust: nat, p: Player, amount: nat)
    requires ids.Distinct() && player !in {ids.log, ids.xp, ids.stone, ids.ironOre}
    requires PrepareWithdraw(player, ids, p.held, amount) == Ok(env.groups)
    requires Attached(env, 0, dust, p.state, p.state) && Spendable(env, 0, ids.xp, p.state) && SameValue(env, Output(1), Input(1))
    ensures WithdrawPathAccepted(env, ids, dust) && Held(env, Output(1), ids.log) == amount
  {
    hide PrepareWithdraw, WithdrawAccepted, Relocked, Spendable, Seeded, Held, SamePacket, StateAt;
    BuiltWithdrawAccepted(env, player, ids, p.held, amount);
    SpendableIsSeeded(env, 0, ids.xp, p.state);
    SameStateSamePackets(env, 0);
  }

  /** `prepare_player`: the whole state sent to itself. */
  lemma BuiltRenewalPathAccepted(env: Env, player: AssetId, ids: InventoryIds, dust: nat, p: Player)
    requires ids.Distinct() && player !in {ids.log, ids.xp, ids.stone, ids.ironOre}
    requires env.groups == RenewalGroups(player, ids, p.held)
    requires Attached(env, 1, dust, p.state, p.state) && Spendable(env, 1, ids.xp, p.state)
    ensures RenewalPathAccepted(env, ids, dust)
  {
    hide RenewalGroups, AllUnchanged, Relocked, Spendable, Seeded, SamePacket, StateAt;
    RenewalKeepsEverything(env, player, ids, p.held);
    SpendableIsSeeded(env, 1, ids.xp, p.state);
    SameStateSamePackets(env, 1);
  }

  /** Every chop the host builds passes the whole tree covenant. */
  lemma BuiltChopPathAccepted(env: Env, player: AssetId, tree: AssetId, ids: InventoryIds, dust: nat, p: Player, t: Tree)
    requires DistinctAssets(player, tree, ids) && PrepareChop(env.sha, p, t).Ok?
    requires var r := PrepareChop(env.sha, p, t).value;
             ShowsChop(env, player, tree, ids, (p, t), (r.player, r.tree))
    requires Relocked(env, 0, 0, dust) && Relocked(env, 1, 1, dust) && SamePacket(env, TREE_STATE_PACKET_TYPE, 1)
    requires Spendable(env, 0, ids.xp, p.state)
    ensures ChopPathAccepted(env, tree, ids, dust)
  {
    hide PrepareChop, ChopGroups, ChopAccepted, Relocked, Spendable, Seeded, SamePacket, StateAt, HealthAt;
    BuiltChopAccepted(env, player, tree, ids, p, t);
    SpendableIsSeeded(env, 0, ids.xp, p.state);
  }

  /** Every tree renewal the host builds passes the whole covenant of the path it chose. */
  lemma BuiltTreePathAccepted(env: Env, tree: AssetId, ids: InventoryIds, t: Tree)
    requires ids.Distinct() && tree !in {ids.log, ids.xp, ids.stone, ids.ironOre}
    requires PrepareTree(tree, ids, t, 1, false, true).Ok? && TreeStarts(env)
    requires var r := PrepareTree(tree, ids, t, 1, false, true).value;
             env.groups == r.groups && HealthAt(env, OfInput(1)) == Some(t.health) && HealthAt(env, OfOutput) == Some(r.health)
    ensures if PrepareTree(tree, ids, t, 1, false, true).value.regrowth then RegrowthPathAccepted(env, tree, ids)
            else MaintenancePathAccepted(env, tree, ids)
  {
    hide TreeStarts, RegrowthAccepted, MaintenanceAccepted, HealthAt;
    BuiltTreeRenewalAccepted(env, tree, ids, t);
  }
}
