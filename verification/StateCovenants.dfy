/**
 The asset relations of the remaining state covenants: player withdrawal and renewal, tree maintenance
 and regrowth, and the gate that keeps every equipped axe backed by earned XP.
*/
module StateCovenants {
  import opened Common
  import opened ScriptNumber
  import opened ScriptMachine
  import opened PlayerRules
  import opened CovenantFragments
  import opened PlayerCovenant
  import opened CraftCovenant
  import opened ChopCovenant

  // ----- unchanged assets -----

  /** Presence and amount are the same on both sides. */
  function UnchangedCode(from: nat, to: nat, asset: AssetId, next: Code): Code {
    OptionalLookupCode(Input(from), asset,
      OptionalLookupCode(Output(to), asset, Ops3(Rot, EqualVerify, EqualVerify, next)))
  }

  predicate Unchanged(env: Env, from: nat, to: nat, asset: AssetId) {
    AmountAt(env, Output(to), asset) == AmountAt(env, Input(from), asset)
  }

  lemma UnchangedRuns(from: nat, to: nat, asset: AssetId, next: Code, env: Env, vm: Vm)
    requires Live(vm)
    ensures Exec(UnchangedCode(from, to, asset, next), env, vm)
         == Exec(next, env, if Unchanged(env, from, to, asset) then vm else Halted)
  {
    hide Exec, Step, Encode, OptionalLookupCode, AmountAt;
    var before, after := AmountAt(env, Input(from), asset), AmountAt(env, Output(to), asset);
    var looked := PushLookup(vm, env, Input(from), asset);
    var m, n := Held(env, Input(from), asset), Held(env, Output(to), asset);
    OptionalLookupRuns(Input(from), asset, OptionalLookupCode(Output(to), asset, Ops3(Rot, EqualVerify, EqualVerify, next)), env, vm);
    OptionalLookupRuns(Output(to), asset, Ops3(Rot, EqualVerify, EqualVerify, next), env, looked);
    StackRuns(Rot, Ops2(EqualVerify, EqualVerify, next), env, PushLookup(looked, env, Output(to), asset));
    EqualVerifyRuns(Bit(after.Some?), Bit(before.Some?), Cons(EqualVerify, next), env, PushNumber(PushNumber(vm, m), n));
    EqualVerifyRuns(m, n, next, env, vm);
    ExecHalted(Cons(EqualVerify, next), env);
    ExecHalted(next, env);
  }

  function AllUnchangedCode(from: nat, to: nat, assets: seq<AssetId>, next: Code): Code {
    if assets == [] then next
    else UnchangedCode(from, to, assets[0], AllUnchangedCode(from, to, assets[1..], next))
  }

  predicate AllUnchanged(env: Env, from: nat, to: nat, assets: seq<AssetId>) {
    forall asset <- assets :: Unchanged(env, from, to, asset)
  }

  lemma {:induction false} AllUnchangedRuns(from: nat, to: nat, assets: seq<AssetId>, next: Code, env: Env, vm: Vm)
    requires Live(vm)
    ensures Exec(AllUnchangedCode(from, to, assets, next), env, vm)
         == Exec(next, env, if AllUnchanged(env, from, to, assets) then vm else Halted)
  {
    hide Exec, UnchangedCode, Unchanged;
    if assets != [] {
      var rest := AllUnchangedCode(from, to, assets[1..], next);
      UnchangedRuns(from, to, assets[0], rest, env, vm);
      AllUnchangedRuns(from, to, assets[1..], next, env, vm);
      ExecHalted(rest, env);
      ExecHalted(next, env);
      assert assets == [assets[0]] + assets[1..];
    }
  }

  /** Asset part of `player_renewal_covenant_script`: input one is recreated at output zero unchanged. */
  function PlayerRenewalCode(ids: InventoryIds, next: Code): Code {
    AllUnchangedCode(1, 0, [ids.log, ids.xp, ids.stone, ids.ironOre], next)
  }

  // ----- withdrawal -----

  /** Asset part of `player_withdraw_covenant_script`: only LOG leaves, and all of it reaches output one. */
  function WithdrawCode(ids: InventoryIds, next: Code): Code {
    RequiredLookupCode(Input(0), ids.log, LeavingCode(ids.log,
      AllUnchangedCode(0, 0, [ids.xp, ids.stone, ids.ironOre], next)))
  }

  function LeavingCode(log: AssetId, next: Code): Code {
    BalanceCode(Output(0), log, Cons(Sub, BalanceCode(Output(1), log, Cons(EqualVerify, next))))
  }

  predicate WithdrawAccepted(env: Env, ids: InventoryIds) {
    match AmountAt(env, Input(0), ids.log)
    case None => false
    case Some(logs) =>
      && logs == Held(env, Output(0), ids.log) + Held(env, Output(1), ids.log)
      && AllUnchanged(env, 0, 0, [ids.xp, ids.stone, ids.ironOre])
  }

  lemma LeavingRuns(log: AssetId, logs: nat, next: Code, env: Env, vm: Vm)
    requires Live(vm)
    ensures Exec(LeavingCode(log, next), env, PushNumber(vm, logs))
         == Exec(next, env, if logs == Held(env, Output(0), log) + Held(env, Output(1), log) then vm else Halted)
  {
    hide Exec, Step, Encode, BalanceCode, Held;
    var compare := Cons(EqualVerify, next);
    var left := BalanceCode(Output(1), log, compare);
    var kept := Held(env, Output(0), log);
    BalanceRuns(Output(0), log, Cons(Sub, left), env, PushNumber(vm, logs));
    NumericRuns(Sub, logs, kept, left, env, vm);
    BalanceRuns(Output(1), log, compare, env, PushNumber(vm, logs - kept));
    EqualVerifyRuns(logs - kept, Held(env, Output(1), log), next, env, vm);
  }

  /** A withdrawal runs on exactly when LOG is split between state and destination and all else is unchanged. */
  lemma WithdrawRuns(ids: InventoryIds, next: Code, env: Env, vm: Vm)
    requires Live(vm)
    ensures Exec(WithdrawCode(ids, next), env, vm)
         == Exec(next, env, if WithdrawAccepted(env, ids) then vm else Halted)
  {
    hide Exec, RequiredLookupCode, LeavingCode, AllUnchangedCode, AmountAt, AllUnchanged;
    var soulbound := AllUnchangedCode(0, 0, [ids.xp, ids.stone, ids.ironOre], next);
    RequiredLookupRuns(Input(0), ids.log, LeavingCode(ids.log, soulbound), env, vm);
    AllUnchangedRuns(0, 0, [ids.xp, ids.stone, ids.ironOre], next, env, vm);
    ExecHalted(LeavingCode(ids.log, soulbound), env);
    ExecHalted(soulbound, env);
    ExecHalted(next, env);
    match AmountAt(env, Input(0), ids.log) {
      case None =>
      case Some(logs) => LeavingRuns(ids.log, logs, soulbound, env, vm);
    }
  }

  // ----- tree renewal -----

  /** Marker and reserves of a renewed tree: input one recreated at output zero. */
  function TreeRenewalCode(tree: AssetId, ids: InventoryIds, next: Code): Code {
    UnitCode(Input(1), tree, UnitCode(Output(0), tree,
      AllUnchangedCode(1, 0, [ids.log, ids.xp, ids.stone, ids.ironOre], next)))
  }

  predicate TreeKept(env: Env, tree: AssetId, ids: InventoryIds) {
    && AmountAt(env, Input(1), tree) == Some(1) && AmountAt(env, Output(0), tree) == Some(1)
    && AllUnchanged(env, 1, 0, [ids.log, ids.xp, ids.stone, ids.ironOre])
  }

  lemma TreeRenewalRuns(tree: AssetId, ids: InventoryIds, next: Code, env: Env, vm: Vm)
    requires Live(vm)
    ensures Exec(TreeRenewalCode(tree, ids, next), env, vm)
         == Exec(next, env, if TreeKept(env, tree, ids) then vm else Halted)
  {
    hide Exec, UnitCode, AllUnchangedCode, AmountAt, AllUnchanged;
    var assets := [ids.log, ids.xp, ids.stone, ids.ironOre];
    var reserves := AllUnchangedCode(1, 0, assets, next);
    UnitRuns(Input(1), tree, UnitCode(Output(0), tree, reserves), env, vm);
    UnitRuns(Output(0), tree, reserves, env, vm);
    AllUnchangedRuns(1, 0, assets, next, env, vm);
    ExecHalted(UnitCode(Output(0), tree, reserves), env);
    ExecHalted(reserves, env);
    ExecHalted(next, env);
  }

  function RequireEqual(n: int, next: Code): Code { Ops2(PushInt(n), EqualVerify, next) }

  lemma RequireEqualRuns(n: int, m: int, next: Code, env: Env, vm: Vm)
    requires Live(vm)
    ensures Exec(RequireEqual(n, next), env, PushNumber(vm, m)) == Exec(next, env, if m == n then vm else Halted)
  {
    hide Exec, Step, Encode;
    PushIntRuns(n, Cons(EqualVerify, next), env, PushNumber(vm, m));
    EqualVerifyRuns(m, n, next, env, vm);
  }

  /** `tree_regrowth_covenant_script` after its shape checks: a stump with LOG left becomes fully grown. */
  function RegrowthCode(tree: AssetId, ids: InventoryIds, next: Code): Code {
    TreeRenewalCode(tree, ids, HealthCode(OfInput(1), RequireEqual(0, FundedCode(ids.log, GrownCode(next)))))
  }

  function FundedCode(log: AssetId, next: Code): Code {
    OptionalLookupCode(Input(1), log, RequireEqual(1, Ops3(PushInt(0), GreaterThan, Verify, next)))
  }

  function GrownCode(next: Code): Code { HealthCode(OfOutput, RequireEqual(10, next)) }

  predicate RegrowthAccepted(env: Env, tree: AssetId, ids: InventoryIds) {
    && TreeKept(env, tree, ids)
    && HealthAt(env, OfInput(1)) == Some(0)
    && Held(env, Input(1), ids.log) > 0
    && HealthAt(env, OfOutput) == Some(10)
  }

  lemma FundedRuns(log: AssetId, next: Code, env: Env, vm: Vm)
    requires Live(vm)
    ensures Exec(FundedCode(log, next), env, vm)
         == Exec(next, env, if Held(env, Input(1), log) > 0 then vm else Halted)
  {
    hide Exec, Step, Encode, OptionalLookupCode, RequireEqual, AmountAt;
    var positive := Ops3(PushInt(0), GreaterThan, Verify, next);
    var held := Held(env, Input(1), log);
    OptionalLookupRuns(Input(1), log, RequireEqual(1, positive), env, vm);
    RequireEqualRuns(1, Bit(AmountAt(env, Input(1), log).Some?), positive, env, PushNumber(vm, held));
    ExecHalted(positive, env);
    ExecHalted(next, env);
    ConstantRuns(GreaterThan, held, 0, Cons(Verify, next), env, vm);
    VerifyRuns(held > 0, next, env, vm);
  }

  lemma GrownRuns(next: Code, env: Env, vm: Vm)
    requires Live(vm)
    ensures Exec(GrownCode(next), env, vm) == Exec(next, env, if HealthAt(env, OfOutput) == Some(10) then vm else Halted)
  {
    hide Exec, HealthCode, RequireEqual, HealthAt;
    HealthRuns(OfOutput, RequireEqual(10, next), env, vm);
    ExecHalted(RequireEqual(10, next), env);
    ExecHalted(next, env);
    match HealthAt(env, OfOutput) {
      case None =>
      case Some(h) => RequireEqualRuns(10, h, next, env, vm);
    }
  }

  /** Regrowth runs on exactly for a conserved, funded stump that becomes fully grown. */
  lemma RegrowthRuns(tree: AssetId, ids: InventoryIds, next: Code, env: Env, vm: Vm)
    requires Live(vm)
    ensures Exec(RegrowthCode(tree, ids, next), env, vm)
         == Exec(next, env, if RegrowthAccepted(env, tree, ids) then vm else Halted)
  {
    hide Exec, TreeRenewalCode, HealthCode, RequireEqual, FundedCode, GrownCode, TreeKept, HealthAt, Held;
    var grown := GrownCode(next);
    var funded := FundedCode(ids.log, grown);
    var stump := RequireEqual(0, funded);
    TreeRenewalRuns(tree, ids, HealthCode(OfInput(1), stump), env, vm);
    HealthRuns(OfInput(1), stump, env, vm);
    FundedRuns(ids.log, grown, env, vm);
    GrownRuns(next, env, vm);
    ExecHalted(HealthCode(OfInput(1), stump), env);
    ExecHalted(stump, env);
    ExecHalted(funded, env);
    ExecHalted(grown, env);
    ExecHalted(next, env);
    match HealthAt(env, OfInput(1)) {
      case None =>
      case Some(h) => RequireEqualRuns(0, h, funded, env, vm);
    }
  }

  /** `tree_maintenance_covenant_script` after its shape checks. */
  function MaintenanceCode(tree: AssetId, ids: InventoryIds, next: Code): Code {
    TreeRenewalCode(tree, ids, HealthCode(OfInput(1), HealthCode(OfOutput, Cons(EqualVerify, next))))
  }

  predicate MaintenanceAccepted(env: Env, tree: AssetId, ids: InventoryIds) {
    && TreeKept(env, tree, ids)
    && HealthAt(env, OfInput(1)).Some? && HealthAt(env, OfOutput) == HealthAt(env, OfInput(1))
  }

  /** Maintenance runs on exactly when reserves, marker and health all stay as they are. */
  lemma MaintenanceRuns(tree: AssetId, ids: InventoryIds, next: Code, env: Env, vm: Vm)
    requires Live(vm)
    ensures Exec(MaintenanceCode(tree, ids, next), env, vm)
         == Exec(next, env, if MaintenanceAccepted(env, tree, ids) then vm else Halted)
  {
    hide Exec, Step, Encode, TreeRenewalCode, HealthCode, TreeKept, HealthAt;
    var compare := Cons(EqualVerify, next);
    var after := HealthCode(OfOutput, compare);
    TreeRenewalRuns(tree, ids, HealthCode(OfInput(1), after), env, vm);
    HealthRuns(OfInput(1), after, env, vm);
    ExecHalted(HealthCode(OfInput(1), after), env);
    ExecHalted(after, env);
    ExecHalted(compare, env);
    ExecHalted(next, env);
    match HealthAt(env, OfInput(1)) {
      case None =>
      case Some(before) =>
        HealthRuns(OfOutput, compare, env, PushNumber(vm, before));
        match HealthAt(env, OfOutput) {
          case None =>
          case Some(h) => EqualVerifyRuns(before, h, next, env, vm);
        }
    }
  }

  // ----- axe progression -----

  /** Check one tier: if it is the equipped one, the XP balance must reach its requirement. */
  function TierCode(input: nat, xp: AssetId, tier: nat, required: nat, next: Code): Code {
    Ops4(Dup, PushInt(tier), Equal, If,
      BalanceCode(Input(input), xp, Ops4(PushInt(required - 1), GreaterThan, Verify, EndIf, next)))
  }

  /** `push_player_axe_progression`. */
  function ProgressionCode(input: nat, xp: AssetId, next: Code): Code {
    AxeCode(OfInput(input),
      TierCode(input, xp, 1, RequiredXp(Wooden),
        TierCode(input, xp, 2, RequiredXp(Stone),
          TierCode(input, xp, 3, RequiredXp(Iron), Cons(Drop, next)))))
  }

  lemma TierRuns(input: nat, xp: AssetId, tier: nat, required: nat, n: int, next: Code, env: Env, vm: Vm)
    requires Live(vm)
    ensures Exec(TierCode(input, xp, tier, required, next), env, PushNumber(vm, n))
         == Exec(next, env, if n == tier && Held(env, Input(input), xp) < required then Halted else PushNumber(vm, n))
  {
    hide Exec, Step, Encode, BalanceCode, Held;
    var finish := Cons(EndIf, next);
    var gate := Ops3(PushInt(required - 1), GreaterThan, Verify, finish);
    var held := Held(env, Input(input), xp);
    var inside := PushNumber(Enter(vm, Chosen(n == tier)), n);
    TierTestRuns(tier, n, BalanceCode(Input(input), xp, gate), env, vm);
    if n == tier {
      BalanceRuns(Input(input), xp, gate, env, inside);
      ConstantRuns(GreaterThan, held, required - 1, Cons(Verify, finish), env, inside);
      VerifyRuns(held >= required, finish, env, inside);
      ExecHalted(finish, env);
      ExecHalted(next, env);
    } else {
      BalanceSkips(Input(input), xp, gate, env, inside);
      SkippedRun(gate, 3, env, inside);
    }
    BranchRuns(EndIf, next, env, inside);
  }

  /** The gate passes exactly the axes backed by their required XP. */
  lemma ProgressionRuns(input: nat, xp: AssetId, next: Code, env: Env, vm: Vm)
    requires Live(vm)
    ensures Exec(ProgressionCode(input, xp, next), env, vm)
         == Exec(next, env, match AxeAt(env, OfInput(input))
                            case None => Halted
                            case Some(axe) => if Held(env, Input(input), xp) >= RequiredXp(axe) then vm else Halted)
  {
    hide Exec, Step, Encode, AxeCode, TierCode, AxeAt, Held;
    var done := Cons(Drop, next);
    var third := TierCode(input, xp, 3, RequiredXp(Iron), done);
    var second := TierCode(input, xp, 2, RequiredXp(Stone), third);
    var first := TierCode(input, xp, 1, RequiredXp(Wooden), second);
    AxeRuns(OfInput(input), first, env, vm);
    ExecHalted(first, env);
    ExecHalted(second, env);
    ExecHalted(third, env);
    ExecHalted(done, env);
    ExecHalted(next, env);
    match AxeAt(env, OfInput(input)) {
      case None =>
      case Some(axe) =>
        TierRuns(input, xp, 1, RequiredXp(Wooden), axe.Tier(), second, env, vm);
        TierRuns(input, xp, 2, RequiredXp(Stone), axe.Tier(), third, env, vm);
        TierRuns(input, xp, 3, RequiredXp(Iron), axe.Tier(), done, env, vm);
        StackRuns(Drop, next, env, PushNumber(vm, axe.Tier()));
    }
  }
}
