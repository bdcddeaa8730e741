/**
 Why the agreement of health and LOG modulo ten is the invariant: without it some run of ordinary actions
 leaves a tree with more health than LOG, and the covenants let it.
*/
module Regrowth {
  import opened Common
  import opened ScriptMachine
  import opened PlayerRules
  import opened CovenantFragments
  import opened PlayerCovenant
  import opened CraftCovenant
  import opened ChopCovenant
  import opened StateCovenants
  import opened CovenantPaths
  import opened Transactions
  import opened Forest
  import opened Chains

  predicate Congruent(t: Tree) { t.reserve.log % LOGS_PER_TREE == t.health % LOGS_PER_TREE }

  predicate CoversHealth(t: Tree) { t.health <= t.reserve.log }

  /** Experience and materials for every LOG. */
  predicate Stocked(t: Tree) { t.reserve.log <= t.reserve.xp && t.reserve.log <= t.reserve.stone && t.reserve.log <= t.reserve.ironOre }

  // ----- agreement is enough -----

  /** What one action can do to a tree's health and LOG: nothing, one reward, or the regrowth of a funded stump. */
  predicate Grows(t: Tree, u: Tree) {
    || (u.health == t.health && u.reserve.log == t.reserve.log)
    || (t.health > 0 && t.reserve.log > 0 && u.health == t.health - 1 && u.reserve.log == t.reserve.log - 1)
    || (FundedStump(t) && u.health == LOGS_PER_TREE && u.reserve.log == t.reserve.log)
  }

  lemma ChopGrows(sha: Sha, p: Player, t: Tree)
    requires PrepareChop(sha, p, t).Ok?
    ensures Grows(t, PrepareChop(sha, p, t).value.tree)
  {
    hide Advance, MaterialOf, BucketFold;
  }

  lemma StepGrows(sha: Sha, w: World, a: Action, i: nat)
    requires i < |w.trees|
    ensures i < |Next(sha, w, a).trees| && Grows(w.trees[i], Next(sha, w, a).trees[i])
  {
    hide PrepareChop, CanCraft;
    TreesStay(sha, w, a);
    if a.Chop? && Known(w, a) && PrepareChop(sha, w.accounts[a.player].player, w.trees[a.tree]).Ok? {
      ChopGrows(sha, w.accounts[a.player].player, w.trees[a.tree]);
    }
  }

  lemma {:induction false} CongruentStays(sha: Sha, w: World, actions: seq<Action>, i: nat)
    requires i < |w.trees| && CoversHealth(w.trees[i]) && Congruent(w.trees[i])
    ensures i < |Run(sha, w, actions).trees| && CoversHealth(Run(sha, w, actions).trees[i])
    decreases |actions|
  {
    hide Next;
    if actions != [] {
      StepGrows(sha, w, actions[0], i);
      CongruentStays(sha, Next(sha, w, actions[0]), actions[1..], i);
    }
  }

  // ----- and it is needed -----

  predicate CanSwing(w: World, p: nat, i: nat) {
    && p < |w.accounts| && i < |w.trees| && AxeEarned(w.accounts[p].player)
    && CoversHealth(w.trees[i]) && Stocked(w.trees[i])
  }

  /** One swing at a live tree: either it pays, or the credit grows and the tree stays. */
  lemma OneSwing(sha: Sha, w: World, p: nat, i: nat)
    requires CanSwing(w, p, i) && w.trees[i].health > 0
    ensures var v := Next(sha, w, Chop(p, i));
            && p < |v.accounts| && i < |v.trees| && AxeEarned(v.accounts[p].player) && Stocked(v.trees[i])
            && if v.trees[i] == w.trees[i]
               then w.accounts[p].player.state.luck.credit < v.accounts[p].player.state.luck.credit
               else Paid(w.trees[i], v.trees[i])
  {
    hide LogDropBasisPoints, MaterialOf, BucketFold;
    var r := PrepareChop(sha, w.accounts[p].player, w.trees[i]);
    assert r.Ok?;
  }

  predicate Paid(t: Tree, u: Tree) { t.health > 0 && u.health == t.health - 1 && u.reserve.log == t.reserve.log - 1 }

  /** Credit is bounded, so one player's swings at a live tree end in a reward, whatever the hash. */
  lemma {:induction false} ForcedReward(sha: Sha, w: World, p: nat, i: nat) returns (actions: seq<Action>)
    requires CanSwing(w, p, i) && w.trees[i].health > 0
    ensures var v := Run(sha, w, actions); CanSwing(v, p, i) && Paid(w.trees[i], v.trees[i])
    decreases MAX_LUCK_CREDIT - w.accounts[p].player.state.luck.credit
  {
    hide Next, AxeEarned, Stocked;
    var v := Next(sha, w, Chop(p, i));
    OneSwing(sha, w, p, i);
    OneAction(sha, w, Chop(p, i));
    if v.trees[i] == w.trees[i] {
      var rest := ForcedReward(sha, v, p, i);
      actions := [Chop(p, i)] + rest;
      RunOnwards(sha, w, [Chop(p, i)], rest);
    } else {
      actions := [Chop(p, i)];
    }
  }

  lemma RegrowStep(sha: Sha, w: World, p: nat, i: nat)
    requires CanSwing(w, p, i) && FundedStump(w.trees[i])
    ensures var v := Next(sha, w, Regrow(i));
            && p < |v.accounts| && v.accounts == w.accounts && i < |v.trees|
            && v.trees[i] == w.trees[i].(health := LOGS_PER_TREE)
  {}

  /** Actions after which an incongruent tree has more health than LOG. */
  lemma {:induction false} Overgrows(sha: Sha, w: World, p: nat, i: nat) returns (actions: seq<Action>)
    requires CanSwing(w, p, i) && w.trees[i].health <= LOGS_PER_TREE && !Congruent(w.trees[i])
    ensures i < |Run(sha, w, actions).trees| && !CoversHealth(Run(sha, w, actions).trees[i])
    decreases w.trees[i].reserve.log, LOGS_PER_TREE - w.trees[i].health
  {
    hide Next, Run, AxeEarned;
    var first;
    if w.trees[i].health == 0 {
      first := [Regrow(i)];
      RegrowStep(sha, w, p, i);
      OneAction(sha, w, Regrow(i));
    } else {
      first := ForcedReward(sha, w, p, i);
    }
    var v := Run(sha, w, first);
    if CoversHealth(v.trees[i]) {
      var rest := Overgrows(sha, v, p, i);
      actions := first + rest;
      RunOnwards(sha, w, first, rest);
    } else {
      actions := first;
    }
  }

  lemma NewcomerCanSwing(sha: Sha, w: World, luck: Luck, i: nat)
    requires i < |w.trees| && CoversHealth(w.trees[i]) && Stocked(w.trees[i])
    ensures var v := Next(sha, w, Activate(luck, 0)); CanSwing(v, |w.accounts|, i) && v.trees == w.trees
  {
    hide Newcomer, AxeEarned, CoversHealth, Stocked;
    NewcomerEarned(luck);
  }

  lemma NewcomerEarned(luck: Luck)
    ensures AxeEarned(Newcomer(luck, 0).player)
  {}

  /** The same in any world: a newcomer can do the swinging. */
  lemma SomeRunOvergrows(sha: Sha, w: World, i: nat) returns (actions: seq<Action>)
    requires i < |w.trees| && w.trees[i].health <= LOGS_PER_TREE && CoversHealth(w.trees[i]) && Stocked(w.trees[i])
    requires !Congruent(w.trees[i])
    ensures i < |Run(sha, w, actions).trees| && !CoversHealth(Run(sha, w, actions).trees[i])
  {
    hide Run, Next, CoversHealth, Stocked, Congruent, CanSwing;
    var luck := Luck(sha([]), INITIAL_LUCK_CREDIT);
    var activate := Activate(luck, 0);
    var v := Next(sha, w, activate);
    NewcomerCanSwing(sha, w, luck, i);
    var rest := Overgrows(sha, v, |w.accounts|, i);
    OneAction(sha, w, activate);
    RunOnwards(sha, w, [activate], rest);
    actions := [activate] + rest;
  }

  ghost predicate StaysCovered(sha: Sha, w: World, i: nat) {
    forall actions :: i < |Run(sha, w, actions).trees| && CoversHealth(Run(sha, w, actions).trees[i])
  }

  /**
   Health stays covered by LOG along every run from any world exactly when the two agree modulo ten to begin
   with, for a tree that covers its health and has experience and materials for its LOG.
  */
  lemma CoverageNeedsCongruence(sha: Sha, w: World, i: nat)
    requires i < |w.trees| && w.trees[i].health <= LOGS_PER_TREE && CoversHealth(w.trees[i]) && Stocked(w.trees[i])
    ensures StaysCovered(sha, w, i) <==> Congruent(w.trees[i])
  {
    hide Run, CoversHealth, Stocked, Congruent;
    if Congruent(w.trees[i]) {
      forall actions ensures i < |Run(sha, w, actions).trees| && CoversHealth(Run(sha, w, actions).trees[i]) {
        CongruentStays(sha, w, actions, i);
      }
    } else {
      var actions := SomeRunOvergrows(sha, w, i);
    }
  }

  // ----- the covenants do not prevent it -----

  /** A nine-byte number packet, as credit and health packets are. */
  function HealthPacket(health: Credit): Bytes { EncodeCredit(health) }

  lemma HealthPacketReads(health: Credit, env: Env, source: Source)
    requires PacketAt(env, TREE_HEALTH_PACKET_TYPE, source) == Some(HealthPacket(health))
    ensures HealthAt(env, source) == Some(health)
  {
    CreditPacket(EncodeCredit(health), health);
    ScriptReadsCredit(EncodeCredit(health));
  }

  /** The transaction that renews a tree: one lock, value and place on both sides. */
  function RenewalEnv(sha: Sha, groups: seq<AssetGroup>, before: Bytes, after: Bytes, place: Bytes, program: Bytes, dust: nat): Env {
    Env(sha, groups,
        map[(TREE_STATE_PACKET_TYPE, 1) := place, (TREE_HEALTH_PACKET_TYPE, 1) := before],
        map[TREE_STATE_PACKET_TYPE := place, TREE_HEALTH_PACKET_TYPE := after],
        map[1 := program], map[0 := program], map[1 := dust], map[0 := dust], map[], (_, _, _) => false)
  }

  /**
   Every stump with LOG left, agreeing or not, has a transaction the whole regrowth covenant accepts; with less
   than ten LOG it leaves more health than LOG.
  */
  lemma EveryFundedStumpRegrows(sha: Sha, terms: Terms, t: Tree, place: Bytes, program: Bytes) returns (env: Env)
    requires terms.ids.Distinct() && terms.tree !in {terms.ids.log, terms.ids.xp, terms.ids.stone, terms.ids.ironOre}
    requires FundedStump(t)
    ensures RegrowthPathAccepted(env, terms.tree, terms.ids) && SpendsTree(env, terms.ids, t)
    ensures ShownTree(env, terms.ids, 0) == Some(t.(health := LOGS_PER_TREE))
    ensures t.reserve.log < LOGS_PER_TREE ==> !CoversHealth(ShownTree(env, terms.ids, 0).value)
  {
    hide HealthAt, AllUnchanged, AmountAt, RenewalGroups, EncodeCredit;
    env := RenewalEnv(sha, RenewalGroups(terms.tree, terms.ids, t.reserve), HealthPacket(0), HealthPacket(LOGS_PER_TREE),
                      place, program, terms.dust);
    HealthPacketReads(0, env, OfInput(1));
    HealthPacketReads(LOGS_PER_TREE, env, OfOutput);
    RenewalKeepsEverything(env, terms.tree, terms.ids, t.reserve);
    UnchangedInventory(env, terms.ids);
  }

  // ----- a withdrawal of nothing -----

  /** The state sent to itself, with its LOG group and no destination. */
  function IdleGroups(player: AssetId, ids: InventoryIds, held: Inventory): seq<AssetGroup> {
    [MarkerGroup(0, player), AssetGroup(ids.log, [(0, held.log)], [(0, held.log)])] + CarryGroups(0, Soulbound(ids, held))
  }

  /** The withdrawal covenant accepts a withdrawal of nothing from any state that holds LOG and an earned axe. */
  lemma ZeroWithdrawalIsAccepted(sha: Sha, terms: Terms, player: AssetId, p: Player, program: Bytes, spent: Digest) returns (env: Env)
    requires terms.ids.Distinct() && player !in {terms.ids.log, terms.ids.xp, terms.ids.stone, terms.ids.ironOre}
    requires p.held.log > 0 && AxeEarned(p) && player.group == 0 && spent != player.txid
    ensures SpendsPlayer(env, 0, terms.ids, p)
    ensures WithdrawPathAccepted(env, terms.ids, terms.dust) && Held(env, Output(1), terms.ids.log) == 0
  {
    hide Relocked, SameValue, SamePackets, StateAt, CarryGroups;
    var groups := IdleGroups(player, terms.ids, p.held);
    env := PlayerEnv(sha, groups, 0, p.state, program, terms.dust, spent);
    PlayerEnvShows(sha, groups, 0, p.state, program, terms.dust, spent);
    IdleAmounts(env, player, terms.ids, p.held);
    IdleIsSeeded(env, terms.ids, p);
  }

  lemma IdleAmounts(env: Env, player: AssetId, ids: InventoryIds, held: Inventory)
    requires ids.Distinct() && player !in {ids.log, ids.xp, ids.stone, ids.ironOre}
    requires env.groups == IdleGroups(player, ids, held)
    ensures InventoryAt(env, Input(0), ids) == held && Held(env, Output(1), ids.log) == 0 && WithdrawAccepted(env, ids)
  {
    hide CarryGroups;
    var idle := AssetGroup(ids.log, [(0, held.log)], [(0, held.log)]);
    var prefix := [MarkerGroup(0, player), idle];
    CarriedAmounts(env, 0, prefix, Soulbound(ids, held), 0);
    CarriedAmounts(env, 0, prefix, Soulbound(ids, held), 1);
    CarriedAmounts(env, 0, prefix, Soulbound(ids, held), 2);
    SecondGroupFound(env.groups, idle);
    assert Assigned([(0, held.log)], 0) == Some(held.log) && Assigned([(0, held.log)], 1) == None;
  }

  lemma IdleIsSeeded(env: Env, ids: InventoryIds, p: Player)
    requires StateAt(env, OfInput(0)) == Some(p.state) && Held(env, Input(0), ids.xp) == p.held.xp && AxeEarned(p)
    requires HasOrigin(env, 0) && !FirstSpend(env, 0)
    ensures Seeded(env, 0, ids.xp)
  {
    hide AmountAt, AxeAt, CreditAt, RollAt;
  }
}
