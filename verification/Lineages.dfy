/**
 How players come into the game, and what holds of their luck from then on. The covenants cannot see where a state
 came from, so only a first spend is bound to the seeded start; but whatever a player starts with, every swing of
 every chain keeps the promises of the luck credit.
*/
module Lineages {
  import opened Common
  import opened ScriptMachine
  import opened PlayerRules
  import opened CovenantFragments
  import opened PlayerCovenant
  import opened CraftCovenant
  import opened ChopCovenant
  import opened StateCovenants
  import opened CovenantPaths
  import opened Transactions
  import opened Forest
  import opened Chains
  import opened LuckBounds

  // ----- what a player can start with -----

  /** An accepted transaction brings this state into the world, on its first spend or off it. */
  ghost predicate Brings(t: Tx, sha: Sha, terms: Terms, w: World, state: PlayerState, brought: nat, program: Bytes, first: bool) {
    && t.spender.Entrant? && Extends(sha, terms, w, t)
    && StateOf(t) == Some(state) && Holding(t, terms.ids).log == brought
    && ProgramAt(t.env, Input(PlayerInput(t.a))) == Some(program)
    && (FirstSpend(t.env, PlayerInput(t.a)) <==> first)
  }

  ghost predicate CanEnter(sha: Sha, terms: Terms, w: World, state: PlayerState, brought: nat, program: Bytes, first: bool) {
    exists t :: Brings(t, sha, terms, w, state, brought, program, first)
  }

  /** The state renewed unchanged, spent from the transaction that issued its marker or from another. */
  lemma RenewalBrings(sha: Sha, terms: Terms, w: World, player: AssetId, state: PlayerState, brought: nat, program: Bytes, first: bool)
    returns (t: Tx)
    requires terms.ids.Distinct() && player !in {terms.ids.log, terms.ids.xp, terms.ids.stone, terms.ids.ironOre}
    requires player.group == 0 && brought <= w.outside && state.axe == NoAxe
    requires first ==> state == Activated(sha, program)
    ensures Brings(t, sha, terms, w, state, brought, program, first)
  {
    hide StateAt, InventoryAt, RenewalPathAccepted, FirstSpend, ProgramAt, Newcomer;
    var env := RenewalOf(sha, terms, player, state, brought, program, first);
    t := Tx(env, Entrant, RenewPlayer(|w.accounts|));
  }

  lemma RenewalOf(sha: Sha, terms: Terms, player: AssetId, state: PlayerState, brought: nat, program: Bytes, first: bool)
    returns (env: Env)
    requires terms.ids.Distinct() && player !in {terms.ids.log, terms.ids.xp, terms.ids.stone, terms.ids.ironOre}
    requires player.group == 0 && state.axe == NoAxe && (first ==> state == Activated(sha, program))
    ensures env.sha == sha && RenewalPathAccepted(env, terms.ids, terms.dust)
    ensures StateAt(env, OfInput(1)) == Some(state) && InventoryAt(env, Input(1), terms.ids) == EMPTY.(log := brought)
    ensures ProgramAt(env, Input(1)) == Some(program) && (FirstSpend(env, 1) <==> first)
  {
    hide RenewalGroups, StateAt, Relocked, SamePackets, SameValue, AllUnchanged, PlayerEnv, ProgramAt, Activated;
    var held := EMPTY.(log := brought);
    var groups := RenewalGroups(player, terms.ids, held);
    var spent := if first then player.txid else Other(player.txid);
    env := PlayerEnv(sha, groups, 1, state, program, terms.dust, spent);
    PlayerEnvShows(sha, groups, 1, state, program, terms.dust, spent);
    PlayerEnvIs(sha, groups, 1, state, program, terms.dust, spent);
    RenewalStarts(player, terms.ids, held);
    RenewalKeepsEverything(env, player, terms.ids, held);
    SpendableIsSeeded(env, 1, terms.ids.xp, state);
  }

  lemma PlayerEnvIs(sha: Sha, groups: seq<AssetGroup>, input: nat, state: PlayerState, program: Bytes, dust: nat, spent: Digest)
    ensures var env := PlayerEnv(sha, groups, input, state, program, dust, spent);
            && env.sha == sha && env.groups == groups && env.outpoints == map[input := (spent, 0)]
            && ProgramAt(env, Input(input)) == Some(program)
  {}

  lemma RenewalStarts(player: AssetId, ids: InventoryIds, held: Inventory)
    ensures var groups := RenewalGroups(player, ids, held); |groups| > 0 && groups[0].asset == player
  {}

  /** Some other transaction. */
  function Other(txid: Digest): (other: Digest)
    ensures other != txid
  {
    [if txid[0] == 0 then 1 else 0] + txid[1..]
  }

  /**
   Exactly what can enter any world: on a first spend the activated state of its program and nothing else, off it
   every roll and every credit, and in no way an axe.
  */
  lemma EntryIsExact(sha: Sha, terms: Terms, w: World, player: AssetId, state: PlayerState, brought: nat, program: Bytes)
    requires terms.ids.Distinct() && player !in {terms.ids.log, terms.ids.xp, terms.ids.stone, terms.ids.ironOre}
    requires player.group == 0 && brought <= w.outside
    ensures CanEnter(sha, terms, w, state, brought, program, true) <==> state == Activated(sha, program)
    ensures CanEnter(sha, terms, w, state, brought, program, false) <==> state.axe == NoAxe
  {
    hide Extends, Activated;
    ActivatedHasNoAxe(sha, program);
    if state == Activated(sha, program) {
      var t := RenewalBrings(sha, terms, w, player, state, brought, program, true);
    }
    if state.axe == NoAxe {
      var t := RenewalBrings(sha, terms, w, player, state, brought, program, false);
    }
    forall t, first | Brings(t, sha, terms, w, state, brought, program, first)
      ensures state.axe == NoAxe && (first ==> state == Activated(sha, program))
    {
      BroughtIsNewcomer(t, sha, terms, w, state);
    }
  }

  lemma ActivatedHasNoAxe(sha: Sha, program: Bytes)
    ensures Activated(sha, program).axe == NoAxe
  {}

  lemma BroughtIsNewcomer(t: Tx, sha: Sha, terms: Terms, w: World, state: PlayerState)
    requires t.spender.Entrant? && Extends(sha, terms, w, t) && StateOf(t) == Some(state)
    ensures state.axe == NoAxe
    ensures FirstSpend(t.env, PlayerInput(t.a)) ==>
              && ProgramAt(t.env, Input(PlayerInput(t.a))).Some?
              && state == Activated(sha, ProgramAt(t.env, Input(PlayerInput(t.a))).value)
  {
    hide Accepted, StateAt, InventoryAt, SpendsTree, FirstSpend, Activated, ProgramAt;
    EntrantIsNewcomer(t, terms);
    if FirstSpend(t.env, PlayerInput(t.a)) { FirstSpendIsActivated(t, terms); }
  }

  // ----- one player's swings in a run -----

  /** The action is a swing this player gets to make. */
  predicate Swings(sha: Sha, w: World, a: Action, p: nat) { a.Chop? && a.player == p && Perform(sha, w, a).Ok? }

  /** Experience and axe at each of a player's swings along a run. */
  function ProgressOf(sha: Sha, w: World, actions: seq<Action>, p: nat): seq<Progress>
    decreases |actions|
  {
    if actions == [] then []
    else
      (if Swings(sha, w, actions[0], p)
       then [Progress(w.accounts[p].player.held.xp, w.accounts[p].player.state.axe)] else [])
      + ProgressOf(sha, Next(sha, w, actions[0]), actions[1..], p)
  }

  predicate Gains(sha: Sha, w: World, a: Action, p: nat)
    requires Swings(sha, w, a, p)
  {
    p < |Next(sha, w, a).accounts| && Next(sha, w, a).accounts[p].player.held.xp > w.accounts[p].player.held.xp
  }

  /** Which of the swings raised the player's experience. */
  function PaidOf(sha: Sha, w: World, actions: seq<Action>, p: nat): seq<bool>
    decreases |actions|
  {
    if actions == [] then []
    else
      (if Swings(sha, w, actions[0], p) then [Gains(sha, w, actions[0], p)] else [])
      + PaidOf(sha, Next(sha, w, actions[0]), actions[1..], p)
  }

  /** A swing advances the luck as the host does; nothing else a run can do touches it. */
  lemma StepOfLuck(sha: Sha, w: World, a: Action, p: nat)
    requires p < |w.accounts|
    ensures p < |Next(sha, w, a).accounts|
    ensures var (before, after) := (w.accounts[p].player, Next(sha, w, a).accounts[p].player);
            if Swings(sha, w, a, p)
            then var reward := Advance(sha, before.state.luck, before.held.xp, before.state.axe);
                 after.state.luck == reward.next && after.state.axe == before.state.axe
                 && after.held.xp == before.held.xp + (if reward.success then 1 else 0)
            else after.state.luck == before.state.luck
  {
    hide Advance, MaterialOf, BucketFold;
  }

  /** Along every run a player's rewards and luck are those of one lineage of `advance`. */
  lemma {:induction false} RunFollowsLineage(sha: Sha, w: World, actions: seq<Action>, p: nat)
    requires p < |w.accounts|
    ensures p < |Run(sha, w, actions).accounts|
    ensures var (luck, progress) := (w.accounts[p].player.state.luck, ProgressOf(sha, w, actions, p));
            && PaidOf(sha, w, actions, p) == LineageRewards(sha, luck, progress)
            && Run(sha, w, actions).accounts[p].player.state.luck == LuckAfter(sha, luck, progress)
    decreases |actions|
  {
    hide Next, Perform, Advance;
    if actions != [] {
      StepOfLuck(sha, w, actions[0], p);
      RunFollowsLineage(sha, Next(sha, w, actions[0]), actions[1..], p);
      var rest := ProgressOf(sha, Next(sha, w, actions[0]), actions[1..], p);
      if Swings(sha, w, actions[0], p) {
        assert ProgressOf(sha, w, actions, p)[1..] == rest;
      } else {
        assert ProgressOf(sha, w, actions, p) == rest;
      }
    }
  }

  /** Also of a player who comes in along the way. */
  lemma {:induction false} PlayerHasLineage(sha: Sha, w: World, actions: seq<Action>, p: nat) returns (luck: Luck)
    ensures PaidOf(sha, w, actions, p) == LineageRewards(sha, luck, ProgressOf(sha, w, actions, p))
    decreases |actions|
  {
    hide Next, Advance;
    if p < |w.accounts| {
      luck := w.accounts[p].player.state.luck;
      RunFollowsLineage(sha, w, actions, p);
    } else if actions == [] {
      luck := Luck(sha([]), 0);
    } else {
      luck := PlayerHasLineage(sha, Next(sha, w, actions[0]), actions[1..], p);
      assert !Swings(sha, w, actions[0], p);
      assert ProgressOf(sha, w, actions, p) == ProgressOf(sha, Next(sha, w, actions[0]), actions[1..], p);
    }
  }

  // ----- the promises -----

  function RateOf(p: Progress): nat { LogDropBasisPoints(p.xp, p.axe) }

  /** Expected LOG of the swings, in basis points. */
  function Expected(progress: seq<Progress>): nat {
    if progress == [] then 0 else RateOf(progress[0]) + Expected(progress[1..])
  }

  /** Rewards stay within two LOG of what was expected. */
  predicate WithinTwo(paid: seq<bool>, progress: seq<Progress>) {
    -2 * CHOP_ROLL_BASIS_POINTS <= CHOP_ROLL_BASIS_POINTS * Rewards(paid) - Expected(progress) <= 2 * CHOP_ROLL_BASIS_POINTS
  }

  /** No streak is longer than promised: ten misses, three rewards, two while rates stay at or below one third. */
  predicate StreaksBounded(paid: seq<bool>, progress: seq<Progress>)
    requires |paid| == |progress|
  {
    forall from: nat, to: nat :: from <= to <= |paid| ==> StreakBounded(paid[from..to], progress[from..to])
  }

  predicate StreakBounded(paid: seq<bool>, progress: seq<Progress>) {
    && (All(paid, false) ==> |paid| <= 10)
    && (All(paid, true) ==> |paid| <= 3)
    && (All(paid, true) && (forall p <- progress :: RateOf(p) <= CHOP_ROLL_BASIS_POINTS / 3) ==> |paid| <= 2)
  }

  lemma {:induction false} ExpectedIsExpectation(sha: Sha, roll: Digest, progress: seq<Progress>)
    ensures Expectation(LineageSwings(sha, roll, progress)) == Expected(progress)
    ensures forall i :: 0 <= i < |progress| ==> LineageSwings(sha, roll, progress)[i].rate == RateOf(progress[i])
    decreases |progress|
  {
    if progress != [] {
      var swings := LineageSwings(sha, roll, progress);
      ExpectedIsExpectation(sha, sha(roll), progress[1..]);
      assert swings[1..] == LineageSwings(sha, sha(roll), progress[1..]);
      forall i | 0 <= i < |progress| ensures swings[i].rate == RateOf(progress[i]) {
        if i > 0 { assert swings[1..][i - 1].rate == RateOf(progress[1..][i - 1]); }
      }
    }
  }

  lemma LineageKeepsPromises(sha: Sha, luck: Luck, progress: seq<Progress>)
    ensures var paid := LineageRewards(sha, luck, progress);
            |paid| == |progress| && WithinTwo(paid, progress) && StreaksBounded(paid, progress)
  {
    hide LineageRewards, LineageSwings, LogDropBasisPoints;
    var swings := LineageSwings(sha, luck.roll, progress);
    LineageFollowsSwings(sha, luck, progress);
    ExpectedIsExpectation(sha, luck.roll, progress);
    RewardsTrackExpectation(luck.credit, swings);
    var paid := LineageRewards(sha, luck, progress);
    forall from: nat, to: nat | from <= to <= |paid| ensures StreakBounded(paid[from..to], progress[from..to]) {
      WindowBounded(luck.credit, swings, progress, from, to);
    }
  }

  lemma WindowBounded(credit: Credit, swings: seq<Swing>, progress: seq<Progress>, from: nat, to: nat)
    requires Playable(swings) && |swings| == |progress| && from <= to <= |swings|
    requires forall i :: 0 <= i < |progress| ==> swings[i].rate == RateOf(progress[i])
    ensures StreakBounded(Outcomes(credit, swings)[from..to], progress[from..to])
  {
    hide Outcomes, LogDropBasisPoints;
    var streak := Outcomes(credit, swings)[from..to];
    if All(streak, false) { AtMostTenMisses(credit, swings, from, to); }
    if All(streak, true) {
      if forall p <- progress[from..to] :: RateOf(p) <= CHOP_ROLL_BASIS_POINTS / 3 {
        forall s <- swings[from..to] ensures s.rate <= CHOP_ROLL_BASIS_POINTS / 3 {
          var i :| from <= i < to && swings[i] == s;
          assert progress[i] in progress[from..to];
        }
      }
      AtMostThreeSuccesses(credit, swings, from, to);
    }
  }

  /** Whatever is played by whomever, and whatever luck a player came in with: the promises hold of its swings. */
  lemma EveryRunKeepsPromises(sha: Sha, w: World, actions: seq<Action>, p: nat)
    ensures var (paid, progress) := (PaidOf(sha, w, actions, p), ProgressOf(sha, w, actions, p));
            |paid| == |progress| && WithinTwo(paid, progress) && StreaksBounded(paid, progress)
  {
    hide PaidOf, ProgressOf, LineageRewards, WithinTwo, StreaksBounded;
    var luck := PlayerHasLineage(sha, w, actions, p);
    LineageKeepsPromises(sha, luck, ProgressOf(sha, w, actions, p));
  }

  /** And of every chain of accepted transactions, whose outputs show exactly that run. */
  lemma EveryChainKeepsPromises(sha: Sha, terms: Terms, w: World, chain: seq<Tx>, p: nat)
    requires Chained(sha, terms, w, chain)
    ensures var actions := Actions(chain, terms.ids);
            var (paid, progress) := (PaidOf(sha, w, actions, p), ProgressOf(sha, w, actions, p));
            && Shown(sha, terms, w, chain) == Some(Run(sha, w, actions))
            && |paid| == |progress| && WithinTwo(paid, progress) && StreaksBounded(paid, progress)
  {
    hide Chained, Shown, Run, Actions, PaidOf, ProgressOf, WithinTwo, StreaksBounded;
    ChainsAreRuns(sha, terms, w, chain);
    EveryRunKeepsPromises(sha, w, Actions(chain, terms.ids), p);
  }

  // ----- the streak bounds are reached -----

  /** The player may swing `n` times at the tree, whatever comes of it. */
  predicate Ready(w: World, p: nat, i: nat, n: nat) {
    && p < |w.accounts| && i < |w.trees| && AxeEarned(w.accounts[p].player)
    && n <= w.trees[i].health && n <= w.trees[i].reserve.log && n <= w.trees[i].reserve.xp
    && n <= w.trees[i].reserve.stone && n <= w.trees[i].reserve.ironOre
  }

  lemma ReadySwing(sha: Sha, w: World, p: nat, i: nat, n: nat)
    requires Ready(w, p, i, n) && n > 0
    ensures Swings(sha, w, Chop(p, i), p)
    ensures var v := Next(sha, w, Chop(p, i));
            && Ready(v, p, i, n - 1) && |v.trees| == |w.trees|
            && v.accounts[p].player.state.axe == w.accounts[p].player.state.axe
            && w.accounts[p].player.held.xp <= v.accounts[p].player.held.xp <= w.accounts[p].player.held.xp + 1
            && forall k :: 0 <= k < |w.trees| && k != i ==> v.trees[k] == w.trees[k]
  {
    hide Advance, MaterialOf, BucketFold;
  }

  /** Swings at one tree are made with the same axe and experience that rises by at most one each. */
  predicate Climbs(progress: seq<Progress>, xp: nat, axe: AxeTier) {
    forall k :: 0 <= k < |progress| ==> progress[k].axe == axe && xp <= progress[k].xp <= xp + k
  }

  lemma {:induction false} SwingsClimb(sha: Sha, w: World, p: nat, i: nat, n: nat)
    requires Ready(w, p, i, n)
    ensures var progress := ProgressOf(sha, w, seq(n, _ => Chop(p, i)), p);
            |progress| == n && Climbs(progress, w.accounts[p].player.held.xp, w.accounts[p].player.state.axe)
    decreases n
  {
    hide Next, Ready, Swings;
    Readily(w, p, i, n);
    if n > 0 {
      var v := Next(sha, w, Chop(p, i));
      ReadySwing(sha, w, p, i, n);
      Readily(v, p, i, n - 1);
      SwingsClimb(sha, v, p, i, n - 1);
      var swings := seq(n, _ => Chop(p, i));
      assert swings[0] == Chop(p, i) && swings[1..] == seq(n - 1, _ => Chop(p, i));
      var now := Progress(w.accounts[p].player.held.xp, w.accounts[p].player.state.axe);
      assert ProgressOf(sha, w, swings, p) == [now] + ProgressOf(sha, v, swings[1..], p);
    }
  }

  lemma Readily(w: World, p: nat, i: nat, n: nat)
    requires Ready(w, p, i, n)
    ensures p < |w.accounts|
  {}

  /** A player at every level bonus with an iron axe, having burned its recipes, and the one tree it played. */
  function Veteran(luck: Luck): World {
    World([Tree(6, Inventory(45_946, 45_946, 49_998, 49_998))],
          [Account(Player(PlayerState(luck, Iron), Inventory(4_046, TOP_XP, 0, 0)), 0, 0, Inventory(8, 0, 2, 2))], 0)
  }

  lemma SingleTotals(t: Tree, a: Account)
    ensures InTrees([t]) == t.reserve && InAccounts([a]) == Kept(a)
  {
    assert [t][1..] == [] && [a][..0] == [];
    assert InTrees([t]) == Plus(t.reserve, EMPTY) && InAccounts([a]) == Plus(EMPTY, Kept(a));
  }

  lemma VeteranIsSafe(luck: Luck)
    ensures Safe(Veteran(luck)) && Ready(Veteran(luck), 0, 0, 6)
  {
    hide InTrees, InAccounts;
    var w := Veteran(luck);
    SingleTotals(w.trees[0], w.accounts[0]);
    assert TreeSafe(w.trees[0]) && AccountSafe(w.accounts[0]);
  }

  /** A newcomer's first swing, at one tree, and its next ten at another. */
  function ColdRun(luck: Luck): seq<Action> { [Activate(luck, 0), Chop(0, 0)] + seq(10, _ => Chop(0, 1)) }

  lemma ColdProgress(sha: Sha, luck: Luck) returns (progress: seq<Progress>)
    ensures progress == ProgressOf(sha, Deployed(2), ColdRun(luck), 0) && |progress| == 11 && AtRate(progress, 2_000)
    ensures PaidOf(sha, Deployed(2), ColdRun(luck), 0) == LineageRewards(sha, luck, progress)
  {
    hide Ready, LogDropBasisPoints, LineageRewards, Advance, Perform;
    var actions := ColdRun(luck);
    var w := Next(sha, Deployed(2), Activate(luck, 0));
    DeployedReady(sha, luck);
    var v := Next(sha, w, Chop(0, 0));
    ReadySwing(sha, w, 0, 0, 1);
    OtherTreeReady(w, v);
    SwingsClimb(sha, v, 0, 1, 10);
    var later := seq(10, _ => Chop(0, 1));
    assert actions[0] == Activate(luck, 0) && actions[1..] == [Chop(0, 0)] + later && actions[1..][1..] == later;
    progress := ProgressOf(sha, w, actions[1..], 0);
    assert progress == [Progress(0, NoAxe)] + ProgressOf(sha, v, later, 0);
    assert ProgressOf(sha, Deployed(2), actions, 0) == progress;
    forall q <- progress ensures LogDropBasisPoints(q.xp, q.axe) == 2_000 { TopRate(q.xp); }
    RunFollowsLineage(sha, w, actions[1..], 0);
    assert PaidOf(sha, Deployed(2), actions, 0) == PaidOf(sha, w, actions[1..], 0);
  }

  lemma DeployedReady(sha: Sha, luck: Luck)
    ensures var w := Next(sha, Deployed(2), Activate(luck, 0));
            && Ready(w, 0, 0, 1) && Ready(w, 0, 1, 10) && |w.trees| == 2
            && w.accounts == [Newcomer(luck, 0)] && !Swings(sha, Deployed(2), Activate(luck, 0), 0)
  {}

  lemma OtherTreeReady(w: World, v: World)
    requires Ready(w, 0, 1, 10) && Ready(v, 0, 0, 0) && |v.trees| == |w.trees| == 2 && v.trees[1] == w.trees[1]
    ensures Ready(v, 0, 1, 10)
  {}

  /**
   Both streak bounds are reached: under some hash a player just activated is paid once and then misses ten times in
   a row, and in a safe world a player at the top rate is paid three times in a row, its experience rising with it.
  */
  lemma StreakBoundsAreReached() returns (cold: Sha, hot: Sha, roll: Digest)
    ensures var luck := Luck(roll, INITIAL_LUCK_CREDIT);
            PaidOf(cold, Deployed(2), ColdRun(luck), 0) == [true] + seq(10, _ => false)
    ensures var w := Veteran(Luck(roll, INITIAL_LUCK_CREDIT));
            Safe(w) && PaidOf(hot, w, seq(6, _ => Chop(0, 0)), 0) == [false, false, false, true, true, true]
  {
    hide LogDropBasisPoints, LineageRewards, Marked, Clock, PaidOf, ProgressOf, Safe, Ready, Plays;
    roll := Marked(0, false);
    var luck := Luck(roll, INITIAL_LUCK_CREDIT);
    var pattern := [false] + seq(10, _ => true);
    cold := Clock(pattern);
    var progress := ColdProgress(cold, luck);
    ClockPlays(pattern, 0, INITIAL_LUCK_CREDIT, false, progress, 2_000);
    ColdStreak();
    assert pattern[0..] == pattern;
    var swings := [true, true, true, false, false, false];
    hot := Clock(swings);
    var top := HotProgress(hot, luck);
    ClockPlays(swings, 0, INITIAL_LUCK_CREDIT, false, top, 3_800);
    HotStreak();
    assert swings[0..] == swings;
    VeteranIsSafe(luck);
  }

  lemma HotProgress(sha: Sha, luck: Luck) returns (progress: seq<Progress>)
    ensures |progress| == 6 && AtRate(progress, 3_800)
    ensures PaidOf(sha, Veteran(luck), seq(6, _ => Chop(0, 0)), 0) == LineageRewards(sha, luck, progress)
  {
    hide Ready, LogDropBasisPoints, LineageRewards, Advance, Perform, Safe;
    var w := Veteran(luck);
    VeteranIsSafe(luck);
    SwingsClimb(sha, w, 0, 0, 6);
    progress := ProgressOf(sha, w, seq(6, _ => Chop(0, 0)), 0);
    forall q <- progress ensures LogDropBasisPoints(q.xp, q.axe) == 3_800 { TopRate(q.xp); }
    RunFollowsLineage(sha, w, seq(6, _ => Chop(0, 0)), 0);
  }
}
