/**
 The resource half of the tree covenant: luck, health, markers and the four tree-to-player transfers,
 proved to accept exactly the chops the host's transition check accepts.
*/
module ChopCovenant {
  import opened Common
  import opened ScriptNumber
  import opened ScriptMachine
  import opened PlayerRules
  import opened CovenantFragments
  import opened PlayerCovenant
  import opened CraftCovenant

  const LOGS_PER_TREE := 10
  const TREE_HEALTH_PACKET_TYPE := 7

  // ----- tree health -----

  /** A non-negative nine-byte packet; the covenant sets no upper bound. */
  function HealthCode(source: Source, next: Code): Code {
    InspectPacketCode(TREE_HEALTH_PACKET_TYPE, source, WidthCode(9, CanonicalCode(9, RequireAbove(-1, next))))
  }

  function HealthAt(env: Env, source: Source): Option<nat> {
    match PacketAt(env, TREE_HEALTH_PACKET_TYPE, source)
    case None => None
    case Some(p) =>
      if |p| == 9 && ToFixedWidth(Decode(p), 9) == Some(p) && Decode(p) >= 0 then Some(Decode(p)) else None
  }

  lemma HealthRuns(source: Source, next: Code, env: Env, vm: Vm)
    requires Live(vm)
    ensures Exec(HealthCode(source, next), env, vm) == Exec(next, env, PushOrHalt(vm, HealthAt(env, source)))
  {
    hide Exec, InspectPacketCode, WidthCode, CanonicalCode, RequireAbove;
    var signed := RequireAbove(-1, next);
    var canonical := CanonicalCode(9, signed);
    InspectPacketRuns(TREE_HEALTH_PACKET_TYPE, source, WidthCode(9, canonical), env, vm);
    ExecHalted(WidthCode(9, canonical), env);
    ExecHalted(canonical, env);
    ExecHalted(signed, env);
    ExecHalted(next, env);
    match PacketAt(env, TREE_HEALTH_PACKET_TYPE, source) {
      case None =>
      case Some(p) =>
        WidthRuns(9, p, canonical, env, vm);
        CanonicalRuns(9, p, signed, env, vm);
        RequireAboveRuns(-1, Decode(p), next, env, vm);
    }
  }

  /** Output health plus the reward bit on the altstack is the positive input health. */
  function DamageCode(next: Code): Code {
    HealthCode(OfInput(1), HealthCode(OfOutput, SpendCode(next)))
  }

  function SpendCode(next: Code): Code {
    Ops4(Over, PushInt(0), GreaterThan, Verify, SumCheckCode(next))
  }

  predicate Damaged(env: Env, bit: int) {
    match (HealthAt(env, OfInput(1)), HealthAt(env, OfOutput))
    case (Some(before), Some(after)) => before > 0 && before == after + bit
    case _ => false
  }

  lemma SpendRuns(before: nat, after: nat, bit: int, next: Code, env: Env, vm: Vm)
    requires Live(vm)
    ensures Exec(SpendCode(next), env, PushNumber(PushNumber(OnAlt(vm, bit), before), after))
         == Exec(next, env, if before > 0 && before == after + bit then OnAlt(vm, bit) else Halted)
  {
    hide Exec, Step, Encode, SumCheckCode;
    var sum := SumCheckCode(next);
    var start := PushNumber(PushNumber(OnAlt(vm, bit), before), after);
    StackRuns(Over, Ops3(PushInt(0), GreaterThan, Verify, sum), env, start);
    ConstantRuns(GreaterThan, before, 0, Cons(Verify, sum), env, start);
    VerifyRuns(before > 0, sum, env, start);
    ExecHalted(sum, env);
    ExecHalted(next, env);
    SumCheckRuns(before, after, bit, next, env, vm);
  }

  lemma DamageRuns(bit: int, next: Code, env: Env, vm: Vm)
    requires Live(vm)
    ensures Exec(DamageCode(next), env, OnAlt(vm, bit))
         == Exec(next, env, if Damaged(env, bit) then OnAlt(vm, bit) else Halted)
  {
    hide Exec, HealthCode, SpendCode, HealthAt;
    HealthRuns(OfInput(1), HealthCode(OfOutput, SpendCode(next)), env, OnAlt(vm, bit));
    ExecHalted(HealthCode(OfOutput, SpendCode(next)), env);
    ExecHalted(SpendCode(next), env);
    ExecHalted(next, env);
    match HealthAt(env, OfInput(1)) {
      case None =>
      case Some(before) =>
        HealthRuns(OfOutput, SpendCode(next), env, PushNumber(OnAlt(vm, bit), before));
        match HealthAt(env, OfOutput) {
          case None =>
          case Some(after) => SpendRuns(before, after, bit, next, env, vm);
        }
    }
  }

  // ----- required lookups -----

  /** `push_asset_group_index` then the lookup: the group and the assignment must both exist. */
  function RequiredLookupCode(side: Side, asset: AssetId, next: Code): Code {
    Ops6(PushBytes(asset.txid), PushInt(asset.group), FindAssetGroup, PushInt(1), EqualVerify, Drop,
      LookupCode(side, asset, RequireFound(next)))
  }

  lemma RequiredLookupRuns(side: Side, asset: AssetId, next: Code, env: Env, vm: Vm)
    requires Live(vm)
    ensures Exec(RequiredLookupCode(side, asset, next), env, vm)
         == Exec(next, env, PushOrHalt(vm, AmountAt(env, side, asset)))
  {
    hide Exec, Step, Encode, LookupCode, RequireFound, AmountAt;
    var lookup := LookupCode(side, asset, RequireFound(next));
    FoundGroupRuns(asset, lookup, env, vm);
    ExecHalted(lookup, env);
    ExecHalted(RequireFound(next), env);
    ExecHalted(next, env);
    if FindGroup(env.groups, asset).Some? {
      LookupRuns(side, asset, RequireFound(next), env, vm);
      FoundAmountRuns(AmountAt(env, side, asset), next, env, vm);
    } else {
      assert AmountAt(env, side, asset) == None by { MissingGroup(side, asset, env); }
    }
  }

  lemma MissingGroup(side: Side, asset: AssetId, env: Env)
    requires FindGroup(env.groups, asset).None?
    ensures AmountAt(env, side, asset) == None
  {}

  /** `push_asset_group_index` and the DROP after it. */
  lemma FoundGroupRuns(asset: AssetId, next: Code, env: Env, vm: Vm)
    requires Live(vm)
    ensures Exec(Ops6(PushBytes(asset.txid), PushInt(asset.group), FindAssetGroup, PushInt(1), EqualVerify, Drop, next), env, vm)
         == Exec(next, env, if FindGroup(env.groups, asset).Some? then vm else Halted)
  {
    hide Exec, Step, Encode;
    var position := GroupPosition(env.groups, asset);
    var found := FindGroup(env.groups, asset).Some?;
    var drop := Cons(Drop, next);
    FindGroupRuns(asset, Ops3(PushInt(1), EqualVerify, Drop, next), env, vm);
    PushIntRuns(1, Cons(EqualVerify, drop), env, PushNumber(PushNumber(vm, position), Bit(found)));
    EqualVerifyRuns(Bit(found), 1, drop, env, PushNumber(vm, position));
    ExecHalted(drop, env);
    ExecHalted(next, env);
    StackRuns(Drop, next, env, PushNumber(vm, position));
  }

  lemma FoundAmountRuns(amount: Option<nat>, next: Code, env: Env, vm: Vm)
    requires Live(vm)
    ensures Exec(RequireFound(next), env, PushAmount(vm, amount)) == Exec(next, env, PushOrHalt(vm, amount))
  {
    hide Exec, Step, Encode;
    var n := match amount case Some(v) => v case None => 0;
    var under := PushNumber(vm, n);
    PushIntRuns(1, Cons(EqualVerify, next), env, PushNumber(under, Bit(amount.Some?)));
    EqualVerifyRuns(Bit(amount.Some?), 1, next, env, under);
  }

  // ----- exact transfers -----

  /** The tree gives and the player gains exactly the bit; the tree must have held some. */
  predicate Transfers(env: Env, asset: AssetId, bit: int) {
    match AmountAt(env, Input(1), asset)
    case None => false
    case Some(reserve) =>
      && reserve > 0
      && reserve == Held(env, Output(1), asset) + bit
      && Held(env, Output(0), asset) == Held(env, Input(0), asset) + bit
  }

  /** Check one asset against the bit on the altstack; the last check of a bit consumes it. */
  function TransferCode(asset: AssetId, keep: bool, next: Code): Code {
    RequiredLookupCode(Input(1), asset, ReserveCode(asset,
      BalanceCode(Input(0), asset, BalanceCode(Output(0), asset, GainCode(keep, next)))))
  }

  function ReserveCode(asset: AssetId, next: Code): Code {
    RequireAbove(0, BalanceCode(Output(1), asset, SumCheckCode(next)))
  }

  function GainCode(keep: bool, next: Code): Code {
    if keep then Ops6(FromAlt, Dup, ToAlt, Rot, Add, EqualVerify, next)
    else Ops4(FromAlt, Rot, Add, EqualVerify, next)
  }

  function AfterBit(vm: Vm, bit: int, keep: bool): (r: Vm)
    requires vm.Vm?
    ensures r.Vm?
  {
    if keep then OnAlt(vm, bit) else vm
  }

  lemma GainRuns(before: nat, after: nat, bit: int, keep: bool, next: Code, env: Env, vm: Vm)
    requires Live(vm)
    ensures Exec(GainCode(keep, next), env, PushNumber(PushNumber(OnAlt(vm, bit), before), after))
         == Exec(next, env, if after == before + bit then AfterBit(vm, bit, keep) else Halted)
  {
    hide Exec, Step, Encode;
    var stacked := PushNumber(PushNumber(vm, before), after);
    var check := Ops3(Rot, Add, EqualVerify, next);
    if keep { KeptBitRuns(bit, check, env, stacked); } else { StackRuns(FromAlt, check, env, OnAlt(stacked, bit)); }
    var rest := AfterBit(vm, bit, keep);
    StackRuns(Rot, Ops2(Add, EqualVerify, next), env, PushNumber(PushNumber(PushNumber(rest, before), after), bit));
    NumericRuns(Add, bit, before, Cons(EqualVerify, next), env, PushNumber(rest, after));
    EqualVerifyRuns(after, bit + before, next, env, rest);
  }

  lemma ReserveRuns(asset: AssetId, reserve: nat, bit: int, next: Code, env: Env, vm: Vm)
    requires Live(vm)
    ensures Exec(ReserveCode(asset, next), env, PushNumber(OnAlt(vm, bit), reserve))
         == Exec(next, env, if reserve > 0 && reserve == Held(env, Output(1), asset) + bit
                            then OnAlt(vm, bit) else Halted)
  {
    hide Exec, Step, Encode, BalanceCode, RequireAbove, Held, SumCheckCode;
    var sum := SumCheckCode(next);
    var lookup := BalanceCode(Output(1), asset, sum);
    var start := PushNumber(OnAlt(vm, bit), reserve);
    RequireAboveRuns(0, reserve, lookup, env, OnAlt(vm, bit));
    BalanceRuns(Output(1), asset, sum, env, start);
    ExecHalted(lookup, env);
    ExecHalted(next, env);
    SumCheckRuns(reserve, Held(env, Output(1), asset), bit, next, env, vm);
  }

  lemma TransferRuns(asset: AssetId, bit: int, keep: bool, next: Code, env: Env, vm: Vm)
    requires Live(vm)
    ensures Exec(TransferCode(asset, keep, next), env, OnAlt(vm, bit))
         == Exec(next, env, if Transfers(env, asset, bit) then AfterBit(vm, bit, keep) else Halted)
  {
    hide Exec, Encode, RequiredLookupCode, ReserveCode, BalanceCode, GainCode, AmountAt;
    var gain := GainCode(keep, next);
    var after := BalanceCode(Output(0), asset, gain);
    var before := BalanceCode(Input(0), asset, after);
    var held := OnAlt(vm, bit);
    RequiredLookupRuns(Input(1), asset, ReserveCode(asset, before), env, held);
    ExecHalted(ReserveCode(asset, before), env);
    ExecHalted(before, env);
    ExecHalted(next, env);
    match AmountAt(env, Input(1), asset) {
      case None =>
      case Some(reserve) =>
        ReserveRuns(asset, reserve, bit, before, env, vm);
        BalanceRuns(Input(0), asset, after, env, held);
        BalanceRuns(Output(0), asset, gain, env, PushNumber(held, Held(env, Input(0), asset)));
        GainRuns(Held(env, Input(0), asset), Held(env, Output(0), asset), bit, keep, next, env, vm);
    }
  }

  // ----- canonical asset counts and the tree marker -----

  function PresenceCode(side: Side, asset: AssetId, next: Code): Code {
    OptionalLookupCode(side, asset, Cons(Nip, next))
  }

  function Present(env: Env, side: Side, asset: AssetId): nat {
    if AmountAt(env, side, asset).Some? then 1 else 0
  }

  lemma PresenceRuns(side: Side, asset: AssetId, next: Code, env: Env, vm: Vm)
    requires Live(vm)
    ensures Exec(PresenceCode(side, asset, next), env, vm)
         == Exec(next, env, PushNumber(vm, Present(env, side, asset)))
  {
    hide Exec, Step, Encode, OptionalLookupCode, Held, AmountAt;
    OptionalLookupRuns(side, asset, Cons(Nip, next), env, vm);
    StackRuns(Nip, next, env, PushLookup(vm, env, side, asset));
  }

  function CountOp(side: Side): Op { if side.Input? then InspectInAssetCount else InspectOutAssetCount }

  function AssetCount(env: Env, side: Side): nat {
    match side case Input(i) => InputCount(env.groups, i) case Output(i) => OutputCount(env.groups, i)
  }

  /** The state at `side` holds its PLAYER_ID and inventory assets, nothing else. */
  function CountsCode(side: Side, ids: InventoryIds, next: Code): Code {
    PresenceCode(side, ids.log,
      PresenceCode(side, ids.xp, Cons(Add,
        PresenceCode(side, ids.stone, Cons(Add,
          PresenceCode(side, ids.ironOre, Cons(Add, TotalCode(side, next))))))))
  }

  function TotalCode(side: Side, next: Code): Code {
    Ops5(PushInt(1), Add, PushInt(side.index), CountOp(side), EqualVerify, next)
  }

  predicate OnlyInventory(env: Env, side: Side, ids: InventoryIds) {
    AssetCount(env, side)
      == 1 + Present(env, side, ids.log) + Present(env, side, ids.xp)
           + Present(env, side, ids.stone) + Present(env, side, ids.ironOre)
  }

  lemma AddPresence(side: Side, asset: AssetId, sum: nat, next: Code, env: Env, vm: Vm)
    requires Live(vm)
    ensures Exec(PresenceCode(side, asset, Cons(Add, next)), env, PushNumber(vm, sum))
         == Exec(next, env, PushNumber(vm, sum + Present(env, side, asset)))
  {
    hide Exec, Step, Encode, PresenceCode, Present;
    PresenceRuns(side, asset, Cons(Add, next), env, PushNumber(vm, sum));
    NumericRuns(Add, sum, Present(env, side, asset), next, env, vm);
  }

  lemma CountRuns(side: Side, next: Code, env: Env, vm: Vm)
    requires Live(vm)
    ensures Exec(Ops2(PushInt(side.index), CountOp(side), next), env, vm)
         == Exec(next, env, PushNumber(vm, AssetCount(env, side)))
  {
    hide Exec, Encode, Decode, Minimal, InputCount, OutputCount, StackStep, BytesStep, CheckStep, PacketStep, Binary;
    Encodings();
    Unfolding(2, Ops2(PushInt(side.index), CountOp(side), next), env, vm);
  }

  lemma TotalRuns(side: Side, sum: nat, next: Code, env: Env, vm: Vm)
    requires Live(vm)
    ensures Exec(TotalCode(side, next), env, PushNumber(vm, sum))
         == Exec(next, env, if AssetCount(env, side) == 1 + sum then vm else Halted)
  {
    hide Exec, Step, Encode, InputCount, OutputCount;
    var count := Ops3(PushInt(side.index), CountOp(side), EqualVerify, next);
    ConstantRuns(Add, sum, 1, count, env, vm);
    CountRuns(side, Cons(EqualVerify, next), env, PushNumber(vm, sum + 1));
    EqualVerifyRuns(sum + 1, AssetCount(env, side), next, env, vm);
  }

  lemma CountsRun(side: Side, ids: InventoryIds, next: Code, env: Env, vm: Vm)
    requires Live(vm)
    ensures Exec(CountsCode(side, ids, next), env, vm)
         == Exec(next, env, if OnlyInventory(env, side, ids) then vm else Halted)
  {
    hide Exec, Encode, PresenceCode, Present, TotalCode, AssetCount;
    var total := TotalCode(side, next);
    var third := PresenceCode(side, ids.ironOre, Cons(Add, total));
    var second := PresenceCode(side, ids.stone, Cons(Add, third));
    var first := PresenceCode(side, ids.xp, Cons(Add, second));
    var n1 := Present(env, side, ids.log);
    var n2 := n1 + Present(env, side, ids.xp);
    var n3 := n2 + Present(env, side, ids.stone);
    PresenceRuns(side, ids.log, first, env, vm);
    AddPresence(side, ids.xp, n1, second, env, vm);
    AddPresence(side, ids.stone, n2, third, env, vm);
    AddPresence(side, ids.ironOre, n3, total, env, vm);
    TotalRuns(side, n3 + Present(env, side, ids.ironOre), next, env, vm);
  }

  function UnitCode(side: Side, asset: AssetId, next: Code): Code {
    RequiredLookupCode(side, asset, RequireFound(next))
  }

  /** A required lookup followed by `1 EQUALVERIFY` on the amount: exactly one unit. */
  lemma UnitRuns(side: Side, asset: AssetId, next: Code, env: Env, vm: Vm)
    requires Live(vm)
    ensures Exec(UnitCode(side, asset, next), env, vm)
         == Exec(next, env, if AmountAt(env, side, asset) == Some(1) then vm else Halted)
  {
    hide Exec, Step, Encode, RequiredLookupCode, AmountAt;
    RequiredLookupRuns(side, asset, RequireFound(next), env, vm);
    ExecHalted(RequireFound(next), env);
    ExecHalted(next, env);
    match AmountAt(env, side, asset) {
      case None =>
      case Some(n) =>
        PushIntRuns(1, Cons(EqualVerify, next), env, PushNumber(vm, n));
        EqualVerifyRuns(n, 1, next, env, vm);
    }
  }

  // ----- the whole program -----

  /** `tree_covenant_script` from the luck transition to its end. */
  function ChopCode(tree: AssetId, ids: InventoryIds, next: Code): Code {
    AdvancedLuckCode(0, ids.xp, Cons(ToAlt, RewardedCode(tree, ids, next)))
  }

  function RewardedCode(tree: AssetId, ids: InventoryIds, next: Code): Code {
    DamageCode(CountsCode(Input(0), ids, CountsCode(Output(0), ids,
      UnitCode(Input(1), tree, UnitCode(Output(1), tree,
        TransferCode(ids.log, true, TransferCode(ids.xp, true, MaterialsCode(ids, next))))))))
  }

  function MaterialsCode(ids: InventoryIds, next: Code): Code {
    MaterialCode(0, ids.xp, GateCode(StoneTransferCode(ids, next)))
  }

  /** A miss pays no material: replace the code by zero, and keep it on the altstack. */
  function GateCode(next: Code): Code {
    Ops6(FromAlt, If, Else, Drop, PushInt(0), EndIf, Cons(ToAlt, next))
  }

  function StoneTransferCode(ids: InventoryIds, next: Code): Code {
    Ops6(FromAlt, Dup, ToAlt, PushInt(1), Equal, ToAlt, TransferCode(ids.stone, false, OreTransferCode(ids, next)))
  }

  function OreTransferCode(ids: InventoryIds, next: Code): Code {
    Ops4(FromAlt, PushInt(2), Equal, ToAlt, TransferCode(ids.ironOre, false, next))
  }

  lemma GateRuns(code: int, success: bool, next: Code, env: Env, vm: Vm)
    requires Live(vm)
    ensures Exec(GateCode(next), env, PushNumber(OnAlt(vm, Bit(success)), code))
         == Exec(next, env, OnAlt(vm, if success then code else 0))
  {
    hide Exec, Step, Encode;
    var keep := Ops2(EndIf, ToAlt, next);
    var miss := Ops2(Drop, PushInt(0), keep);
    var start := PushNumber(vm, code);
    StackRuns(FromAlt, Ops2(If, Else, miss), env, OnAlt(start, Bit(success)));
    IfRuns(success, Cons(Else, miss), env, start);
    BranchRuns(Else, miss, env, Enter(start, Chosen(success)));
    if success {
      SkippedRun(miss, 2, env, Enter(start, NotTaken));
      BranchRuns(EndIf, Cons(ToAlt, next), env, Enter(start, NotTaken));
      StackRuns(ToAlt, next, env, start);
    } else {
      StackRuns(Drop, Cons(PushInt(0), keep), env, Enter(start, Taken));
      PushIntRuns(0, keep, env, Enter(vm, Taken));
      BranchRuns(EndIf, Cons(ToAlt, next), env, PushNumber(Enter(vm, Taken), 0));
      StackRuns(ToAlt, next, env, PushNumber(vm, 0));
    }
  }

  lemma OreRuns(ids: InventoryIds, code: int, next: Code, env: Env, vm: Vm)
    requires Live(vm)
    ensures Exec(OreTransferCode(ids, next), env, OnAlt(vm, code))
         == Exec(next, env, if Transfers(env, ids.ironOre, Bit(code == 2)) then vm else Halted)
  {
    hide Exec, Step, Encode, TransferCode, Transfers;
    var transfer := TransferCode(ids.ironOre, false, next);
    StackRuns(FromAlt, Ops3(PushInt(2), Equal, ToAlt, transfer), env, OnAlt(vm, code));
    PushIntRuns(2, Ops2(Equal, ToAlt, transfer), env, PushNumber(vm, code));
    EqualRuns(code, 2, Cons(ToAlt, transfer), env, vm);
    StackRuns(ToAlt, transfer, env, PushNumber(vm, Bit(code == 2)));
    TransferRuns(ids.ironOre, Bit(code == 2), false, next, env, vm);
  }

  lemma MaterialTransfersRun(ids: InventoryIds, code: int, next: Code, env: Env, vm: Vm)
    requires Live(vm)
    ensures Exec(StoneTransferCode(ids, next), env, OnAlt(vm, code))
         == Exec(next, env, if Transfers(env, ids.stone, Bit(code == 1)) && Transfers(env, ids.ironOre, Bit(code == 2))
                            then vm else Halted)
  {
    hide Exec, Step, Encode, TransferCode, OreTransferCode, Transfers;
    var ore := OreTransferCode(ids, next);
    var transfer := TransferCode(ids.stone, false, ore);
    var kept := OnAlt(vm, code);
    KeptBitRuns(code, Ops3(PushInt(1), Equal, ToAlt, transfer), env, vm);
    PushIntRuns(1, Ops2(Equal, ToAlt, transfer), env, PushNumber(kept, code));
    EqualRuns(code, 1, Cons(ToAlt, transfer), env, kept);
    StackRuns(ToAlt, transfer, env, PushNumber(kept, Bit(code == 1)));
    TransferRuns(ids.stone, Bit(code == 1), false, ore, env, kept);
    OreRuns(ids, code, next, env, vm);
    ExecHalted(ore, env);
    ExecHalted(next, env);
  }

  /** Resource conditions of an accepted chop, given its reward. */
  predicate Rewarded(env: Env, tree: AssetId, ids: InventoryIds, success: bool) {
    && Damaged(env, Bit(success))
    && OnlyInventory(env, Input(0), ids) && OnlyInventory(env, Output(0), ids)
    && AmountAt(env, Input(1), tree) == Some(1) && AmountAt(env, Output(1), tree) == Some(1)
    && Transfers(env, ids.log, Bit(success)) && Transfers(env, ids.xp, Bit(success))
    && RollAt(env, OfOutput).Some?
    && var material := MaterialDrop(env.sha, RollAt(env, OfOutput).value, Held(env, Input(0), ids.xp), success);
       Transfers(env, ids.stone, Bit(material.StoneDrop?)) && Transfers(env, ids.ironOre, Bit(material.IronOreDrop?))
  }

  lemma MaterialsRun(ids: InventoryIds, success: bool, next: Code, env: Env, vm: Vm)
    requires Live(vm)
    ensures Exec(MaterialsCode(ids, next), env, OnAlt(vm, Bit(success)))
         == Exec(next, env,
              if RollAt(env, OfOutput).None? then Halted
              else
                var material := MaterialDrop(env.sha, RollAt(env, OfOutput).value, Held(env, Input(0), ids.xp), success);
                if Transfers(env, ids.stone, Bit(material.StoneDrop?)) && Transfers(env, ids.ironOre, Bit(material.IronOreDrop?))
                then vm else Halted)
  {
    hide Exec, Encode, MaterialCode, GateCode, StoneTransferCode, Transfers, RollAt, MaterialOf;
    var stone := StoneTransferCode(ids, next);
    var kept := OnAlt(vm, Bit(success));
    MaterialRefinesHost(0, ids.xp, GateCode(stone), env, kept);
    ExecHalted(GateCode(stone), env);
    ExecHalted(next, env);
    match RollAt(env, OfOutput) {
      case None =>
      case Some(roll) =>
        var code := MaterialDrop(env.sha, roll, Held(env, Input(0), ids.xp), true).Code();
        GateRuns(code, success, stone, env, vm);
        MaterialTransfersRun(ids, if success then code else 0, next, env, vm);
    }
  }

  lemma RewardedRuns(tree: AssetId, ids: InventoryIds, success: bool, next: Code, env: Env, vm: Vm)
    requires Live(vm)
    ensures Exec(RewardedCode(tree, ids, next), env, OnAlt(vm, Bit(success)))
         == Exec(next, env, if Rewarded(env, tree, ids, success) then vm else Halted)
  {
    hide Exec, Encode, DamageCode, CountsCode, UnitCode, TransferCode, MaterialsCode, Damaged, OnlyInventory, AmountAt,
         Transfers, RollAt, MaterialDrop;
    var bit := Bit(success);
    var kept := OnAlt(vm, bit);
    var materials := MaterialsCode(ids, next);
    var xp := TransferCode(ids.xp, true, materials);
    var log := TransferCode(ids.log, true, xp);
    var markerOut := UnitCode(Output(1), tree, log);
    var markerIn := UnitCode(Input(1), tree, markerOut);
    var countsOut := CountsCode(Output(0), ids, markerIn);
    var countsIn := CountsCode(Input(0), ids, countsOut);
    DamageRuns(bit, countsIn, env, vm);
    CountsRun(Input(0), ids, countsOut, env, kept);
    CountsRun(Output(0), ids, markerIn, env, kept);
    UnitRuns(Input(1), tree, markerOut, env, kept);
    UnitRuns(Output(1), tree, log, env, kept);
    TransferRuns(ids.log, bit, true, xp, env, vm);
    TransferRuns(ids.xp, bit, true, materials, env, vm);
    MaterialsRun(ids, success, next, env, vm);
    ExecHalted(countsIn, env);
    ExecHalted(countsOut, env);
    ExecHalted(markerIn, env);
    ExecHalted(markerOut, env);
    ExecHalted(log, env);
    ExecHalted(xp, env);
    ExecHalted(materials, env);
    ExecHalted(next, env);
  }

  predicate ChopAccepted(env: Env, tree: AssetId, ids: InventoryIds) {
    match AcceptedReward(env, 0, ids.xp)
    case Some(success) => Rewarded(env, tree, ids, success)
    case None => false
  }

  /**
   The compiled chop program leaves both stacks untouched exactly for the chops that advance the player's
   luck as the host does and move exactly that reward; it fails on every other transaction.
  */
  lemma ChopRefinesHost(tree: AssetId, ids: InventoryIds, next: Code, env: Env, vm: Vm)
    requires Live(vm)
    ensures Exec(ChopCode(tree, ids, next), env, vm)
         == Exec(next, env, if ChopAccepted(env, tree, ids) then vm else Halted)
  {
    hide Exec, Step, Encode, AdvancedLuckCode, RewardedCode, AcceptedReward, Rewarded;
    var rewarded := RewardedCode(tree, ids, next);
    AdvancedLuckRefinesHost(0, ids.xp, Cons(ToAlt, rewarded), env, vm);
    ExecHalted(Cons(ToAlt, rewarded), env);
    ExecHalted(next, env);
    match AcceptedReward(env, 0, ids.xp) {
      case None =>
      case Some(success) =>
        StackRuns(ToAlt, rewarded, env, PushNumber(vm, Bit(success)));
        RewardedRuns(tree, ids, success, next, env, vm);
    }
  }

  // ----- the host's transition check -----

  /** What one chop transaction shows the host: decoded states, health, markers and balances. */
  datatype ChopTransition = ChopTransition(
    before: PlayerState, after: PlayerState, success: bool,
    healthBefore: nat, healthAfter: nat,
    markersBefore: nat, markersAfter: nat,
    playerBefore: Inventory, playerAfter: Inventory,
    treeBefore: Inventory, treeAfter: Inventory)
  {
    /** `ChopTransition::validate` without its value and place checks. */
    predicate Valid(sha: Sha) {
      var expected := Advance(sha, before.luck, playerBefore.xp, before.axe);
      var reward := if success then 1 else 0;
      var material := MaterialDrop(sha, expected.next.roll, playerBefore.xp, success);
      var stone, ore := if material == StoneDrop then 1 else 0, if material == IronOreDrop then 1 else 0;
      && after.axe == before.axe
      && after.luck == expected.next && success == expected.success
      && playerAfter.xp == playerBefore.xp + reward
      && playerAfter.log == playerBefore.log + reward
      && playerAfter.stone == playerBefore.stone + stone
      && playerAfter.ironOre == playerBefore.ironOre + ore
      && markersBefore == 1 && markersAfter == 1
      && healthBefore != 0 && treeBefore.log != 0 && treeBefore.xp != 0
      && healthAfter == healthBefore - reward
      && treeAfter.log == treeBefore.log - reward
      && treeAfter.xp == treeBefore.xp - reward
      && treeAfter.stone == treeBefore.stone - stone
      && treeAfter.ironOre == treeBefore.ironOre - ore
    }
  }

  function InventoryAt(env: Env, side: Side, ids: InventoryIds): Inventory {
    Inventory(Held(env, side, ids.log), Held(env, side, ids.xp), Held(env, side, ids.stone), Held(env, side, ids.ironOre))
  }

  /** The host's view of a transaction, when every packet decodes. */
  function Observed(env: Env, tree: AssetId, ids: InventoryIds, success: bool): Option<ChopTransition> {
    match (StateAt(env, OfInput(0)), StateAt(env, OfOutput), HealthAt(env, OfInput(1)), HealthAt(env, OfOutput))
    case (Some(before), Some(after), Some(healthBefore), Some(healthAfter)) =>
      Some(ChopTransition(before, after, success, healthBefore, healthAfter,
                          Held(env, Input(1), tree), Held(env, Output(1), tree),
                          InventoryAt(env, Input(0), ids), InventoryAt(env, Output(0), ids),
                          InventoryAt(env, Input(1), ids), InventoryAt(env, Output(1), ids)))
    case _ => None
  }

  /**
   The covenant and the host check agree: the program accepts iff the host validates the transition it
   sees, the tree still holds both materials, and the player state holds nothing foreign.
  */
  lemma CovenantMatchesHostCheck(env: Env, tree: AssetId, ids: InventoryIds)
    ensures ChopAccepted(env, tree, ids)
       <==> exists success ::
              && Observed(env, tree, ids, success).Some?
              && Observed(env, tree, ids, success).value.Valid(env.sha)
              && Held(env, Input(1), ids.stone) > 0 && Held(env, Input(1), ids.ironOre) > 0
              && OnlyInventory(env, Input(0), ids) && OnlyInventory(env, Output(0), ids)
  {
    hide HealthAt, CreditAt, AxeAt, AmountAt, Advance, MaterialOf, BucketFold, AssetCount, Present;
    match AcceptedReward(env, 0, ids.xp) {
      case None =>
      case Some(success) =>
        if ChopAccepted(env, tree, ids) {
          assert Observed(env, tree, ids, success).Some? && Observed(env, tree, ids, success).value.Valid(env.sha);
        }
    }
    forall success |
      && Observed(env, tree, ids, success).Some? && Observed(env, tree, ids, success).value.Valid(env.sha)
      && Held(env, Input(1), ids.stone) > 0 && Held(env, Input(1), ids.ironOre) > 0
      && OnlyInventory(env, Input(0), ids) && OnlyInventory(env, Output(0), ids)
      ensures ChopAccepted(env, tree, ids)
    {
      assert AcceptedReward(env, 0, ids.xp) == Some(success);
    }
  }
}
