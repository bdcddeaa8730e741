/**
 The player covenant's luck, material and recipe programs, and what each computes:
 they accept exactly the transitions the host rules allow.
*/
module PlayerCovenant {
  import opened Common
  import opened ScriptNumber
  import opened ScriptMachine
  import opened PlayerRules
  import opened CovenantFragments

  const PLAYER_ROLL_PACKET_TYPE := 5
  const PLAYER_LUCK_CREDIT_PACKET_TYPE := 8
  const PLAYER_AXE_PACKET_TYPE := 9

  // ----- decoded player packets -----

  function AxeAt(env: Env, source: Source): Option<AxeTier> {
    match PacketAt(env, PLAYER_AXE_PACKET_TYPE, source) case Some(p) => DecodeAxe(p) case None => None
  }

  function CreditAt(env: Env, source: Source): Option<Credit> {
    match PacketAt(env, PLAYER_LUCK_CREDIT_PACKET_TYPE, source) case Some(p) => DecodeCredit(p) case None => None
  }

  function RollAt(env: Env, source: Source): Option<Digest> {
    match PacketAt(env, PLAYER_ROLL_PACKET_TYPE, source)
    case Some(p) => if |p| == 32 then Some(p) else None
    case None => None
  }

  /** The complete player state a transaction carries, if every packet is present and valid. */
  function StateAt(env: Env, source: Source): Option<PlayerState> {
    match (RollAt(env, source), CreditAt(env, source), AxeAt(env, source))
    case (Some(roll), Some(credit), Some(axe)) => Some(PlayerState(Luck(roll, credit), axe))
    case _ => None
  }

  function AxeCode(source: Source, next: Code): Code {
    NumberPacketCode(PLAYER_AXE_PACKET_TYPE, source, 1, 4, next)
  }

  function TierOf(axe: Option<AxeTier>): Option<int> {
    match axe case Some(a) => Some(a.Tier()) case None => None
  }

  lemma AxeRuns(source: Source, next: Code, env: Env, vm: Vm)
    requires Live(vm)
    ensures Exec(AxeCode(source, next), env, vm) == Exec(next, env, PushOrHalt(vm, TierOf(AxeAt(env, source))))
  {
    hide Exec;
    NumberPacketRuns(PLAYER_AXE_PACKET_TYPE, source, 1, 4, next, env, vm);
    match PacketAt(env, PLAYER_AXE_PACKET_TYPE, source) {
      case Some(p) => ScriptReadsAxe(p);
      case None =>
    }
  }

  function CreditCode(source: Source, next: Code): Code {
    NumberPacketCode(PLAYER_LUCK_CREDIT_PACKET_TYPE, source, 9, MAX_LUCK_CREDIT + 1, next)
  }

  lemma CreditRuns(source: Source, next: Code, env: Env, vm: Vm)
    requires Live(vm)
    ensures Exec(CreditCode(source, next), env, vm) == Exec(next, env, PushOrHalt(vm, CreditAt(env, source)))
  {
    hide Exec;
    NumberPacketRuns(PLAYER_LUCK_CREDIT_PACKET_TYPE, source, 9, MAX_LUCK_CREDIT + 1, next, env, vm);
    match PacketAt(env, PLAYER_LUCK_CREDIT_PACKET_TYPE, source) {
      case Some(p) => ScriptReadsCredit(p);
      case None =>
    }
  }

  // ----- roll -----

  /** Interpret a hash as a non-negative number and reduce it to a bucket. */
  function BucketCode(next: Code): Code {
    Ops5(PushBytes([0]), Cat, BinToNum, PushInt(CHOP_ROLL_BASIS_POINTS), Mod, next)
  }

  lemma BucketRuns(hash: Bytes, next: Code, env: Env, vm: Vm)
    requires Live(vm)
    ensures Exec(BucketCode(next), env, Push(vm, hash)) == Exec(next, env, PushNumber(vm, BucketFold(hash)))
  {
    hide Exec, Step, Encode, Decode, BucketFold;
    UnsignedDecode(hash);
    BucketIsLittleEndianRemainder(hash);
    var modulo := Ops2(PushInt(CHOP_ROLL_BASIS_POINTS), Mod, next);
    PushBytesRuns([0], Ops2(Cat, BinToNum, modulo), env, Push(vm, hash));
    BytesRuns(Cat, Cons(BinToNum, modulo), env, Push(Push(vm, hash), [0]));
    BytesRuns(BinToNum, modulo, env, Push(vm, hash + [0]));
    ConstantRuns(Mod, LittleEndian(hash), CHOP_ROLL_BASIS_POINTS, next, env, vm);
  }

  function RollCode(input: nat, next: Code): Code {
    InspectPacketCode(PLAYER_ROLL_PACKET_TYPE, OfInput(input), WidthCode(32, HashCode(next)))
  }

  function HashCode(next: Code): Code {
    Ops2(Sha256, Dup, InspectPacketCode(PLAYER_ROLL_PACKET_TYPE, OfOutput, Cons(EqualVerify, BucketCode(next))))
  }

  lemma HashRuns(roll: Bytes, next: Code, env: Env, vm: Vm)
    requires Live(vm)
    ensures Exec(HashCode(next), env, Push(vm, roll))
         == Exec(next, env, if PacketAt(env, PLAYER_ROLL_PACKET_TYPE, OfOutput) == Some(env.sha(roll))
                            then PushNumber(vm, BucketFold(env.sha(roll))) else Halted)
  {
    hide Exec, InspectPacketCode, BucketCode, Encode, PacketStep, AssetStep, Binary;
    var compare := Cons(EqualVerify, BucketCode(next));
    var hashed := Push(Push(vm, env.sha(roll)), env.sha(roll));
    Unfolding(2, HashCode(next), env, Push(vm, roll));
    InspectPacketRuns(PLAYER_ROLL_PACKET_TYPE, OfOutput, compare, env, hashed);
    ExecHalted(compare, env);
    ExecHalted(BucketCode(next), env);
    ExecHalted(next, env);
    BucketRuns(env.sha(roll), next, env, vm);
    match PacketAt(env, PLAYER_ROLL_PACKET_TYPE, OfOutput) {
      case None =>
      case Some(p) => Unfolding(1, compare, env, Push(hashed, p));
    }
  }

  /** The roll bytes of this transaction, when they are the hash of the input's roll. */
  function NextRollAt(env: Env, input: nat): Option<Digest> {
    match RollAt(env, OfInput(input))
    case Some(roll) => if RollAt(env, OfOutput) == Some(env.sha(roll)) then Some(env.sha(roll)) else None
    case None => None
  }

  lemma RollRuns(input: nat, next: Code, env: Env, vm: Vm)
    requires Live(vm)
    ensures Exec(RollCode(input, next), env, vm)
         == Exec(next, env, match NextRollAt(env, input)
                            case Some(roll) => PushNumber(vm, BucketFold(roll))
                            case None => Halted)
  {
    hide Exec, InspectPacketCode, BucketFold;
    InspectPacketRuns(PLAYER_ROLL_PACKET_TYPE, OfInput(input), WidthCode(32, HashCode(next)), env, vm);
    ExecHalted(WidthCode(32, HashCode(next)), env);
    ExecHalted(HashCode(next), env);
    ExecHalted(next, env);
    match PacketAt(env, PLAYER_ROLL_PACKET_TYPE, OfInput(input)) {
      case None =>
      case Some(p) =>
        WidthRuns(32, p, HashCode(next), env, vm);
        HashRuns(p, next, env, vm);
    }
  }

  // ----- drop rate -----

  function BonusArm(tier: nat, bonus: nat, otherwise: Code): Code {
    Ops4(Dup, PushInt(tier), Equal, If, Ops3(Drop, PushInt(bonus), Else, otherwise))
  }

  lemma BonusArmRuns(tier: nat, bonus: nat, n: int, otherwise: Code, env: Env, vm: Vm)
    requires Live(vm)
    ensures Exec(BonusArm(tier, bonus, otherwise), env, PushNumber(vm, n))
         == Exec(otherwise, env, if n == tier then PushNumber(Enter(vm, NotTaken), bonus)
                                 else PushNumber(Enter(vm, Taken), n))
  {
    hide Exec, Step, Encode;
    var body := Ops3(Drop, PushInt(bonus), Else, otherwise);
    TierTestRuns(tier, n, body, env, vm);
    if n == tier {
      StackRuns(Drop, Ops2(PushInt(bonus), Else, otherwise), env, PushNumber(Enter(vm, Taken), n));
      PushIntRuns(bonus, Cons(Else, otherwise), env, Enter(vm, Taken));
      BranchRuns(Else, otherwise, env, PushNumber(Enter(vm, Taken), bonus));
    } else {
      SkippedRun(Ops2(Drop, PushInt(bonus), Cons(Else, otherwise)), 2, env, PushNumber(Enter(vm, NotTaken), n));
      BranchRuns(Else, otherwise, env, PushNumber(Enter(vm, NotTaken), n));
    }
  }

  lemma BonusArmSkips(tier: nat, bonus: nat, otherwise: Code, env: Env, vm: Vm)
    requires Dead(vm)
    ensures Exec(BonusArm(tier, bonus, otherwise), env, vm) == Exec(otherwise, env, Enter(vm, Skipped))
  {
    hide Exec, Encode, StackStep, CheckStep, BytesStep, PacketStep, AssetStep, Binary;
    Unfolding(7, BonusArm(tier, bonus, otherwise), env, vm);
  }

  function NoBonusCode(next: Code): Code { Ops5(Drop, PushInt(0), EndIf, EndIf, EndIf, next) }

  function AxeBonusCode(next: Code): Code {
    BonusArm(1, 200, BonusArm(2, 500, BonusArm(3, 800, NoBonusCode(next))))
  }

  lemma NoBonusRuns(n: int, outer: Branch, middle: Branch, inner: Branch, next: Code, env: Env, vm: Vm)
    requires Live(vm)
    ensures Exec(NoBonusCode(next), env, PushNumber(Enter(Enter(Enter(vm, outer), middle), inner), n))
         == Exec(next, env, PushNumber(vm, if inner.Taken? then 0 else n))
  {
    hide Exec, Encode, CheckStep, BytesStep, PacketStep, AssetStep, Binary;
    Unfolding(5, NoBonusCode(next), env, PushNumber(Enter(Enter(Enter(vm, outer), middle), inner), n));
  }

  lemma AxeBonusRuns(axe: AxeTier, next: Code, env: Env, vm: Vm)
    requires Live(vm)
    ensures Exec(AxeBonusCode(next), env, PushNumber(vm, axe.Tier()))
         == Exec(next, env, PushNumber(vm, axe.BonusBasisPoints()))
  {
    hide Exec, BonusArm, NoBonusCode;
    var third := BonusArm(3, 800, NoBonusCode(next));
    var second := BonusArm(2, 500, third);
    BonusArmRuns(1, 200, axe.Tier(), second, env, vm);
    match axe {
      case Wooden =>
        var one := PushNumber(Enter(vm, NotTaken), 200);
        BonusArmSkips(2, 500, third, env, one);
        BonusArmSkips(3, 800, NoBonusCode(next), env, Enter(one, Skipped));
        NoBonusRuns(200, NotTaken, Skipped, Skipped, next, env, vm);
      case Stone =>
        BonusArmRuns(2, 500, 2, third, env, Enter(vm, Taken));
        BonusArmSkips(3, 800, NoBonusCode(next), env, PushNumber(Enter(Enter(vm, Taken), NotTaken), 500));
        NoBonusRuns(500, Taken, NotTaken, Skipped, next, env, vm);
      case Iron =>
        BonusArmRuns(2, 500, 3, third, env, Enter(vm, Taken));
        BonusArmRuns(3, 800, 3, NoBonusCode(next), env, Enter(Enter(vm, Taken), Taken));
        NoBonusRuns(800, Taken, Taken, NotTaken, next, env, vm);
      case NoAxe =>
        BonusArmRuns(2, 500, 0, third, env, Enter(vm, Taken));
        BonusArmRuns(3, 800, 0, NoBonusCode(next), env, Enter(Enter(vm, Taken), Taken));
        NoBonusRuns(0, Taken, Taken, Taken, next, env, vm);
    }
  }

  /** Add the level bonus to the rate on top if the balance-plus-one below it exceeds the threshold. */
  function ThresholdCode(threshold: nat, next: Code): Code {
    Ops4(Over, PushInt(threshold), GreaterThan, If,
    Ops3(PushInt(LEVEL_LOG_DROP_BONUS_BASIS_POINTS), Add, EndIf, next))
  }

  lemma ThresholdRuns(threshold: nat, rate: nat, xp: nat, next: Code, env: Env, vm: Vm)
    requires Live(vm)
    ensures Exec(ThresholdCode(threshold, next), env, PushNumber(PushNumber(vm, xp + 1), rate))
         == Exec(next, env, PushNumber(PushNumber(vm, xp + 1), if xp >= threshold then rate + 200 else rate))
  {
    hide Exec, Step, Encode;
    var below := PushNumber(vm, xp + 1);
    var bonus := Ops3(PushInt(LEVEL_LOG_DROP_BONUS_BASIS_POINTS), Add, EndIf, next);
    StackRuns(Over, Ops3(PushInt(threshold), GreaterThan, If, bonus), env, PushNumber(below, rate));
    ConstantRuns(GreaterThan, xp + 1, threshold, Cons(If, bonus), env, PushNumber(below, rate));
    IfRuns(xp >= threshold, bonus, env, PushNumber(below, rate));
    if xp >= threshold {
      ConstantRuns(Add, rate, LEVEL_LOG_DROP_BONUS_BASIS_POINTS, Cons(EndIf, next), env, Enter(below, Taken));
      BranchRuns(EndIf, next, env, PushNumber(Enter(below, Taken), rate + 200));
    } else {
      SkippedRun(bonus, 2, env, Enter(PushNumber(below, rate), NotTaken));
      BranchRuns(EndIf, next, env, Enter(PushNumber(below, rate), NotTaken));
    }
  }

  function ThresholdsCode(thresholds: seq<nat>, next: Code): Code {
    if thresholds == [] then next
    else ThresholdCode(XpBalanceFor(thresholds[0]), ThresholdsCode(thresholds[1..], next))
  }

  lemma {:induction false} ThresholdsRun(thresholds: seq<nat>, rate: nat, xp: nat, next: Code, env: Env, vm: Vm)
    requires Live(vm)
    ensures Exec(ThresholdsCode(thresholds, next), env, PushNumber(PushNumber(vm, xp + 1), rate))
         == Exec(next, env, PushNumber(PushNumber(vm, xp + 1), rate + 200 * LevelsReached(thresholds, xp)))
  {
    hide Exec, ThresholdCode;
    if thresholds != [] {
      var threshold := XpBalanceFor(thresholds[0]);
      ThresholdRuns(threshold, rate, xp, ThresholdsCode(thresholds[1..], next), env, vm);
      ThresholdsRun(thresholds[1..], if xp >= threshold then rate + 200 else rate, xp, next, env, vm);
    }
  }

  function LevelRateCode(input: nat, xp: AssetId, next: Code): Code {
    BalanceCode(Input(input), xp, Ops3(PushInt(1), Add, PushInt(BASE_LOG_DROP_BASIS_POINTS),
      ThresholdsCode(LEVEL_LOG_DROP_XP_THRESHOLDS, Ops3(ToAlt, Drop, FromAlt, next))))
  }

  lemma LevelRateRuns(input: nat, xp: AssetId, next: Code, env: Env, vm: Vm)
    requires Live(vm)
    ensures Exec(LevelRateCode(input, xp, next), env, vm)
         == Exec(next, env, PushNumber(vm, LevelBasisPoints(Held(env, Input(input), xp))))
  {
    hide Exec, Step, Encode, BalanceCode, ThresholdsCode;
    var balance := Held(env, Input(input), xp);
    var finish := Ops3(ToAlt, Drop, FromAlt, next);
    var thresholds := ThresholdsCode(LEVEL_LOG_DROP_XP_THRESHOLDS, finish);
    var base := Cons(PushInt(BASE_LOG_DROP_BASIS_POINTS), thresholds);
    BalanceRuns(Input(input), xp, Ops2(PushInt(1), Add, base), env, vm);
    ConstantRuns(Add, balance, 1, base, env, vm);
    var below := PushNumber(vm, balance + 1);
    PushIntRuns(BASE_LOG_DROP_BASIS_POINTS, thresholds, env, below);
    ThresholdsRun(LEVEL_LOG_DROP_XP_THRESHOLDS, BASE_LOG_DROP_BASIS_POINTS, balance, finish, env, vm);
    var rate := LevelBasisPoints(balance);
    StackRuns(ToAlt, Ops2(Drop, FromAlt, next), env, PushNumber(below, rate));
    StackRuns(Drop, Cons(FromAlt, next), env, PushNumber(OnAlt(vm, rate), balance + 1));
    StackRuns(FromAlt, next, env, OnAlt(vm, rate));
  }

  function DropRateCode(input: nat, xp: AssetId, next: Code): Code {
    LevelRateCode(input, xp, AxeCode(OfInput(input), AxeBonusCode(Cons(Add, next))))
  }

  lemma DropRateRuns(input: nat, xp: AssetId, axe: AxeTier, next: Code, env: Env, vm: Vm)
    requires Live(vm) && AxeAt(env, OfInput(input)) == Some(axe)
    ensures Exec(DropRateCode(input, xp, next), env, vm)
         == Exec(next, env, PushNumber(vm, LogDropBasisPoints(Held(env, Input(input), xp), axe)))
  {
    hide Exec, Step, Encode, LevelRateCode, AxeCode, AxeBonusCode, LevelBasisPoints;
    var add := Cons(Add, next);
    var rate := LevelBasisPoints(Held(env, Input(input), xp));
    LevelRateRuns(input, xp, AxeCode(OfInput(input), AxeBonusCode(add)), env, vm);
    AxeRuns(OfInput(input), AxeBonusCode(add), env, PushNumber(vm, rate));
    AxeBonusRuns(axe, add, env, PushNumber(vm, rate));
    NumericRuns(Add, rate, axe.BonusBasisPoints(), next, env, vm);
  }

  // ----- the reward decision -----

  /** From `credit, candidate` with the rate on the altstack to `next credit, reward bit`. */
  function AwardCode(next: Code): Code {
    Ops6(FromAlt, Add, Dup, ToAlt, Dup, PushInt(MAX_LUCK_CREDIT), Ops2(GreaterThan, If, ForcedCode(next)))
  }

  function ForcedCode(next: Code): Code { Ops3(TwoDrop, PushInt(1), Else, WithheldCode(next)) }

  function WithheldCode(next: Code): Code {
    Ops4(Dup, PushInt(CHOP_ROLL_BASIS_POINTS), LessThan, If, Ops3(TwoDrop, PushInt(0), Else, CandidateCode(next)))
  }

  function CandidateCode(next: Code): Code { Ops3(Drop, EndIf, EndIf, SettleCode(next)) }

  function SettleCode(next: Code): Code {
    Ops5(Dup, If, FromAlt, PushInt(CHOP_ROLL_BASIS_POINTS), Sub, Ops3(Else, FromAlt, EndIf, next))
  }

  lemma SettleRuns(raw: int, success: bool, next: Code, env: Env, vm: Vm)
    requires Live(vm)
    ensures Exec(SettleCode(next), env, PushNumber(OnAlt(vm, raw), Bit(success)))
         == Exec(next, env, PushNumber(PushNumber(vm, Bit(success)), if success then raw - 10_000 else raw))
  {
    hide Exec, Step, Encode;
    var finish := Ops3(Else, FromAlt, EndIf, next);
    var spend := Ops2(PushInt(CHOP_ROLL_BASIS_POINTS), Sub, finish);
    var start := OnAlt(vm, raw);
    var bit := PushNumber(start, Bit(success));
    StackRuns(Dup, Ops2(If, FromAlt, spend), env, bit);
    IfRuns(success, Cons(FromAlt, spend), env, bit);
    if success {
      var inside := Enter(PushNumber(vm, 1), Taken);
      StackRuns(FromAlt, spend, env, Enter(bit, Taken));
      ConstantRuns(Sub, raw, CHOP_ROLL_BASIS_POINTS, finish, env, inside);
      var paid := PushNumber(inside, raw - 10_000);
      BranchRuns(Else, Ops2(FromAlt, EndIf, next), env, paid);
      SkippedRun(Ops2(FromAlt, EndIf, next), 1, env, PushNumber(Enter(PushNumber(vm, 1), NotTaken), raw - 10_000));
      BranchRuns(EndIf, next, env, PushNumber(Enter(PushNumber(vm, 1), NotTaken), raw - 10_000));
    } else {
      SkippedRun(Cons(FromAlt, spend), 3, env, Enter(bit, NotTaken));
      BranchRuns(Else, Ops2(FromAlt, EndIf, next), env, Enter(bit, NotTaken));
      StackRuns(FromAlt, Cons(EndIf, next), env, Enter(bit, Taken));
      BranchRuns(EndIf, next, env, PushNumber(Enter(PushNumber(vm, 0), Taken), raw));
    }
  }

  /** The undecided middle range: the candidate bit decides. */
  lemma CandidateRuns(raw: int, candidate: bool, next: Code, env: Env, vm: Vm)
    requires Live(vm)
    ensures Exec(CandidateCode(next), env, Enter(Enter(PushNumber(PushNumber(vm, Bit(candidate)), raw), Taken), Taken))
         == Exec(SettleCode(next), env, PushNumber(vm, Bit(candidate)))
  {
    hide Exec, Encode, CheckStep, BytesStep, PacketStep, AssetStep, Binary, SettleCode;
    Unfolding(3, CandidateCode(next), env, Enter(Enter(PushNumber(PushNumber(vm, Bit(candidate)), raw), Taken), Taken));
  }

  lemma CandidateSkips(outer: Branch, inner: Branch, next: Code, env: Env, vm: Vm)
    requires Live(vm) && !inner.Taken?
    ensures Exec(CandidateCode(next), env, Enter(Enter(vm, outer), inner)) == Exec(SettleCode(next), env, vm)
  {
    hide Exec, Encode, CheckStep, StackStep, BytesStep, PacketStep, AssetStep, Binary, SettleCode;
    Unfolding(3, CandidateCode(next), env, Enter(Enter(vm, outer), inner));
  }

  lemma WithheldRuns(raw: int, candidate: bool, next: Code, env: Env, vm: Vm)
    requires Live(vm)
    ensures Exec(WithheldCode(next), env, Enter(PushNumber(PushNumber(vm, Bit(candidate)), raw), Taken))
         == Exec(SettleCode(next), env, PushNumber(vm, Bit(raw >= CHOP_ROLL_BASIS_POINTS && candidate)))
  {
    hide Exec, Step, Encode, CandidateCode;
    var candidates := PushNumber(vm, Bit(candidate));
    var start := PushNumber(Enter(candidates, Taken), raw);
    var low := raw < CHOP_ROLL_BASIS_POINTS;
    var deny := Ops3(TwoDrop, PushInt(0), Else, CandidateCode(next));
    StackRuns(Dup, Ops3(PushInt(CHOP_ROLL_BASIS_POINTS), LessThan, If, deny), env, start);
    ConstantRuns(LessThan, raw, CHOP_ROLL_BASIS_POINTS, Cons(If, deny), env, start);
    IfRuns(low, deny, env, start);
    if low {
      StackRuns(TwoDrop, Ops2(PushInt(0), Else, CandidateCode(next)), env, Enter(start, Taken));
      PushIntRuns(0, Cons(Else, CandidateCode(next)), env, Enter(Enter(vm, Taken), Taken));
      BranchRuns(Else, CandidateCode(next), env, PushNumber(Enter(Enter(vm, Taken), Taken), 0));
      CandidateSkips(Taken, NotTaken, next, env, PushNumber(vm, 0));
    } else {
      SkippedRun(deny, 2, env, Enter(start, NotTaken));
      BranchRuns(Else, CandidateCode(next), env, Enter(start, NotTaken));
      CandidateRuns(raw, candidate, next, env, vm);
    }
  }

  lemma WithheldSkips(next: Code, env: Env, vm: Vm)
    requires Live(vm)
    ensures Exec(WithheldCode(next), env, Enter(vm, NotTaken)) == Exec(SettleCode(next), env, vm)
  {
    hide Exec, Encode, StackStep, CheckStep, BytesStep, PacketStep, AssetStep, Binary, CandidateCode;
    Unfolding(7, WithheldCode(next), env, Enter(vm, NotTaken));
    CandidateSkips(NotTaken, Skipped, next, env, vm);
  }

  lemma ForcedRuns(raw: int, candidate: bool, next: Code, env: Env, vm: Vm)
    requires Live(vm)
    ensures Exec(ForcedCode(next), env,
                 Enter(PushNumber(PushNumber(vm, Bit(candidate)), raw), Chosen(raw > MAX_LUCK_CREDIT)))
         == Exec(SettleCode(next), env,
                 PushNumber(vm, Bit(raw > MAX_LUCK_CREDIT || (raw >= CHOP_ROLL_BASIS_POINTS && candidate))))
  {
    hide Exec, Step, Encode, WithheldCode;
    var start := PushNumber(PushNumber(vm, Bit(candidate)), raw);
    if raw > MAX_LUCK_CREDIT {
      StackRuns(TwoDrop, Ops2(PushInt(1), Else, WithheldCode(next)), env, Enter(start, Taken));
      PushIntRuns(1, Cons(Else, WithheldCode(next)), env, Enter(vm, Taken));
      BranchRuns(Else, WithheldCode(next), env, PushNumber(Enter(vm, Taken), 1));
      WithheldSkips(next, env, PushNumber(vm, 1));
    } else {
      SkippedRun(ForcedCode(next), 2, env, Enter(start, NotTaken));
      BranchRuns(Else, WithheldCode(next), env, Enter(start, NotTaken));
      WithheldRuns(raw, candidate, next, env, vm);
    }
  }

  lemma AwardRuns(credit: Credit, rate: nat, bucket: nat, next: Code, env: Env, vm: Vm)
    requires Live(vm) && rate <= CHOP_ROLL_BASIS_POINTS
    ensures Exec(AwardCode(next), env, PushNumber(PushNumber(OnAlt(vm, rate), Bit(bucket < rate)), credit))
         == Exec(next, env, PushNumber(PushNumber(vm, Bit(Draw(credit, rate, bucket).1)), Draw(credit, rate, bucket).0))
  {
    hide Exec, Step, Encode, ForcedCode, SettleCode;
    var raw := credit + rate;
    var bit := PushNumber(vm, Bit(bucket < rate));
    var forced := ForcedCode(next);
    var compare := Ops4(Dup, PushInt(MAX_LUCK_CREDIT), GreaterThan, If, forced);
    StackRuns(FromAlt, Ops3(Add, Dup, ToAlt, compare), env, PushNumber(OnAlt(bit, rate), credit));
    NumericRuns(Add, credit, rate, Ops2(Dup, ToAlt, compare), env, bit);
    StackRuns(Dup, Cons(ToAlt, compare), env, PushNumber(bit, raw));
    StackRuns(ToAlt, compare, env, PushNumber(PushNumber(bit, raw), raw));
    var kept := PushNumber(OnAlt(bit, raw), raw);
    StackRuns(Dup, Ops3(PushInt(MAX_LUCK_CREDIT), GreaterThan, If, forced), env, kept);
    ConstantRuns(GreaterThan, raw, MAX_LUCK_CREDIT, Cons(If, forced), env, kept);
    IfRuns(raw > MAX_LUCK_CREDIT, forced, env, kept);
    ForcedRuns(raw, bucket < rate, next, env, OnAlt(vm, raw));
    SettleRuns(raw, Draw(credit, rate, bucket).1, next, env, vm);
  }

  // ----- the complete luck transition -----

  function SameAxeCode(input: nat, next: Code): Code {
    AxeCode(OfInput(input), AxeCode(OfOutput, Cons(EqualVerify, next)))
  }

  lemma SameAxeRuns(input: nat, next: Code, env: Env, vm: Vm)
    requires Live(vm)
    ensures Exec(SameAxeCode(input, next), env, vm)
         == Exec(next, env, if AxeAt(env, OfInput(input)).Some? && AxeAt(env, OfOutput) == AxeAt(env, OfInput(input))
                            then vm else Halted)
  {
    hide Exec, Step, Encode, AxeCode, AxeAt;
    var check := Cons(EqualVerify, next);
    AxeRuns(OfInput(input), AxeCode(OfOutput, check), env, vm);
    ExecHalted(AxeCode(OfOutput, check), env);
    ExecHalted(check, env);
    ExecHalted(next, env);
    match AxeAt(env, OfInput(input)) {
      case None =>
      case Some(before) =>
        AxeRuns(OfOutput, check, env, PushNumber(vm, before.Tier()));
        match AxeAt(env, OfOutput) {
          case None =>
          case Some(after) => EqualVerifyRuns(before.Tier(), after.Tier(), next, env, vm);
        }
    }
  }

  /** `push_advanced_player_luck`: verify the next player packets and leave the reward bit. */
  function AdvancedLuckCode(input: nat, xp: AssetId, next: Code): Code {
    SameAxeCode(input, RollCode(input, DropRateCode(input, xp, CompareCode(input, next))))
  }

  function CompareCode(input: nat, next: Code): Code {
    Ops3(Dup, ToAlt, LessThan, CreditCode(OfInput(input), AwardCode(NextCreditCode(next))))
  }

  function NextCreditCode(next: Code): Code { CreditCode(OfOutput, Cons(EqualVerify, next)) }

  lemma NextCreditRuns(credit: Credit, next: Code, env: Env, vm: Vm)
    requires Live(vm)
    ensures Exec(NextCreditCode(next), env, PushNumber(vm, credit))
         == Exec(next, env, if CreditAt(env, OfOutput) == Some(credit) then vm else Halted)
  {
    hide Exec, Step, Encode, CreditCode, CreditAt;
    var check := Cons(EqualVerify, next);
    CreditRuns(OfOutput, check, env, PushNumber(vm, credit));
    ExecHalted(check, env);
    ExecHalted(next, env);
    match CreditAt(env, OfOutput) {
      case None =>
      case Some(after) => EqualVerifyRuns(credit, after, next, env, vm);
    }
  }

  lemma CompareRuns(input: nat, rate: nat, bucket: nat, next: Code, env: Env, vm: Vm)
    requires Live(vm) && rate <= CHOP_ROLL_BASIS_POINTS
    ensures Exec(CompareCode(input, next), env, PushNumber(PushNumber(vm, bucket), rate))
         == Exec(next, env, match CreditAt(env, OfInput(input))
                            case None => Halted
                            case Some(credit) =>
                              if CreditAt(env, OfOutput) == Some(Draw(credit, rate, bucket).0)
                              then PushNumber(vm, Bit(Draw(credit, rate, bucket).1)) else Halted)
  {
    hide Exec, Step, Encode, CreditCode, AwardCode, NextCreditCode, Draw, CreditAt;
    var award := AwardCode(NextCreditCode(next));
    var credits := CreditCode(OfInput(input), award);
    var start := PushNumber(PushNumber(vm, bucket), rate);
    StackRuns(Dup, Ops2(ToAlt, LessThan, credits), env, start);
    StackRuns(ToAlt, Cons(LessThan, credits), env, PushNumber(start, rate));
    NumericRuns(LessThan, bucket, rate, credits, env, OnAlt(vm, rate));
    CreditRuns(OfInput(input), award, env, PushNumber(OnAlt(vm, rate), Bit(bucket < rate)));
    ExecHalted(award, env);
    ExecHalted(next, env);
    match CreditAt(env, OfInput(input)) {
      case None =>
      case Some(credit) =>
        AwardRuns(credit, rate, bucket, NextCreditCode(next), env, vm);
        NextCreditRuns(Draw(credit, rate, bucket).0, next, env, PushNumber(vm, Bit(Draw(credit, rate, bucket).1)));
    }
  }

  /** The reward of an accepted transition: both states complete, the next one exactly as the host advances it. */
  function AcceptedReward(env: Env, input: nat, xp: AssetId): Option<bool> {
    match (StateAt(env, OfInput(input)), StateAt(env, OfOutput))
    case (Some(before), Some(after)) =>
      var reward := Advance(env.sha, before.luck, Held(env, Input(input), xp), before.axe);
      if after == PlayerState(reward.next, before.axe) then Some(reward.success) else None
    case _ => None
  }

  /**
   The compiled luck program refines the host: for every transaction it runs on exactly when
   the new packets encode the advanced state with the axe unchanged, and then its whole effect is
   to push the host's reward bit; otherwise it fails.
  */
  lemma AdvancedLuckRefinesHost(input: nat, xp: AssetId, next: Code, env: Env, vm: Vm)
    requires Live(vm)
    ensures Exec(AdvancedLuckCode(input, xp, next), env, vm)
         == Exec(next, env, match AcceptedReward(env, input, xp)
                            case Some(success) => PushNumber(vm, Bit(success))
                            case None => Halted)
  {
    hide Exec, Encode, SameAxeCode, RollCode, DropRateCode, CompareCode, BucketFold, LogDropBasisPoints, Draw, AxeAt, RollAt, CreditAt;
    var compare := CompareCode(input, next);
    var rated := DropRateCode(input, xp, compare);
    SameAxeRuns(input, RollCode(input, rated), env, vm);
    RollRuns(input, rated, env, vm);
    ExecHalted(RollCode(input, rated), env);
    ExecHalted(rated, env);
    ExecHalted(next, env);
    match (AxeAt(env, OfInput(input)), NextRollAt(env, input)) {
      case (Some(axe), Some(roll)) =>
        if AxeAt(env, OfOutput) == Some(axe) {
          var rate := LogDropBasisPoints(Held(env, Input(input), xp), axe);
          DropRateRuns(input, xp, axe, compare, env, PushNumber(vm, BucketFold(roll)));
          CompareRuns(input, rate, BucketFold(roll), next, env, vm);
        }
      case _ =>
    }
  }

  // ----- materials -----

  /** `push_material_drop_code`: 0, 1 or 2 for nothing, STONE or IRON ORE, before the reward gate. */
  function MaterialCode(input: nat, xp: AssetId, next: Code): Code {
    Cons(PushBytes(MATERIAL_ROLL_DOMAIN), InspectPacketCode(PLAYER_ROLL_PACKET_TYPE, OfOutput,
      WidthCode(32, Ops2(Cat, Sha256, BucketCode(SelectCode(input, xp, next))))))
  }

  function SelectCode(input: nat, xp: AssetId, next: Code): Code {
    BalanceCode(Input(input), xp,
      Ops3(PushInt(IRON_ORE_UNLOCK_XP_BALANCE - 1), GreaterThan, If, UnlockedCode(next)))
  }

  function UnlockedCode(next: Code): Code {
    Ops4(Dup, PushInt(IRON_ORE_DROP_BASIS_POINTS), LessThan, If,
    Ops3(Drop, PushInt(2), Else,
    StoneCode(IRON_ORE_DROP_BASIS_POINTS + STONE_DROP_BASIS_POINTS, LockedCode(next))))
  }

  function LockedCode(next: Code): Code {
    Ops2(EndIf, Else, StoneCode(STONE_DROP_BASIS_POINTS, Cons(EndIf, next)))
  }

  function StoneCode(limit: nat, next: Code): Code {
    Ops4(PushInt(limit), LessThan, If, PushInt(1), Ops3(Else, PushInt(0), EndIf, next))
  }

  lemma StoneRuns(limit: nat, bucket: nat, next: Code, env: Env, vm: Vm)
    requires Live(vm)
    ensures Exec(StoneCode(limit, next), env, PushNumber(vm, bucket))
         == Exec(next, env, PushNumber(vm, Bit(bucket < limit)))
  {
    hide Exec, Step, Encode;
    var finish := Ops3(Else, PushInt(0), EndIf, next);
    var hit := bucket < limit;
    ConstantRuns(LessThan, bucket, limit, Ops2(If, PushInt(1), finish), env, vm);
    IfRuns(hit, Cons(PushInt(1), finish), env, vm);
    if hit {
      PushIntRuns(1, finish, env, Enter(vm, Taken));
      BranchRuns(Else, Ops2(PushInt(0), EndIf, next), env, PushNumber(Enter(vm, Taken), 1));
      SkippedRun(Ops2(PushInt(0), EndIf, next), 1, env, PushNumber(Enter(vm, NotTaken), 1));
      BranchRuns(EndIf, next, env, PushNumber(Enter(vm, NotTaken), 1));
    } else {
      SkippedRun(Cons(PushInt(1), finish), 1, env, Enter(vm, NotTaken));
      BranchRuns(Else, Ops2(PushInt(0), EndIf, next), env, Enter(vm, NotTaken));
      PushIntRuns(0, Cons(EndIf, next), env, Enter(vm, Taken));
      BranchRuns(EndIf, next, env, PushNumber(Enter(vm, Taken), 0));
    }
  }

  lemma StoneSkips(limit: nat, next: Code, env: Env, vm: Vm)
    requires Dead(vm)
    ensures Exec(StoneCode(limit, next), env, vm) == Exec(next, env, vm)
  {
    hide Exec, Encode, StackStep, CheckStep, BytesStep, PacketStep, AssetStep, Binary;
    Unfolding(7, StoneCode(limit, next), env, vm);
  }

  lemma LockedSkips(next: Code, env: Env, vm: Vm, inner: Branch)
    requires Live(vm)
    ensures Exec(LockedCode(next), env, Enter(Enter(vm, Taken), inner)) == Exec(next, env, vm)
  {
    hide Exec, Encode, StackStep, CheckStep, BytesStep, PacketStep, AssetStep, Binary, StoneCode;
    Unfolding(2, LockedCode(next), env, Enter(Enter(vm, Taken), inner));
    StoneSkips(STONE_DROP_BASIS_POINTS, Cons(EndIf, next), env, Enter(vm, NotTaken));
    Unfolding(1, Cons(EndIf, next), env, Enter(vm, NotTaken));
  }

  lemma LockedRuns(bucket: nat, next: Code, env: Env, vm: Vm)
    requires Live(vm)
    ensures Exec(LockedCode(next), env, PushNumber(Enter(Enter(vm, NotTaken), Skipped), bucket))
         == Exec(next, env, PushNumber(vm, Bit(bucket < STONE_DROP_BASIS_POINTS)))
  {
    hide Exec, Encode, StackStep, CheckStep, BytesStep, PacketStep, AssetStep, Binary, StoneCode;
    Unfolding(2, LockedCode(next), env, PushNumber(Enter(Enter(vm, NotTaken), Skipped), bucket));
    StoneRuns(STONE_DROP_BASIS_POINTS, bucket, Cons(EndIf, next), env, Enter(vm, Taken));
    Unfolding(1, Cons(EndIf, next), env, PushNumber(Enter(vm, Taken), Bit(bucket < STONE_DROP_BASIS_POINTS)));
  }

  lemma UnlockedRuns(bucket: nat, next: Code, env: Env, vm: Vm)
    requires Live(vm)
    ensures Exec(UnlockedCode(next), env, PushNumber(Enter(vm, Taken), bucket))
         == Exec(next, env, PushNumber(vm, MaterialOf(bucket, IRON_ORE_UNLOCK_XP_BALANCE).Code()))
  {
    hide Exec, Step, Encode, StoneCode, LockedCode;
    var limit := IRON_ORE_DROP_BASIS_POINTS + STONE_DROP_BASIS_POINTS;
    var ore := bucket < IRON_ORE_DROP_BASIS_POINTS;
    var start := PushNumber(Enter(vm, Taken), bucket);
    var stone := StoneCode(limit, LockedCode(next));
    var take := Ops3(Drop, PushInt(2), Else, stone);
    StackRuns(Dup, Ops3(PushInt(IRON_ORE_DROP_BASIS_POINTS), LessThan, If, take), env, start);
    ConstantRuns(LessThan, bucket, IRON_ORE_DROP_BASIS_POINTS, Cons(If, take), env, start);
    IfRuns(ore, take, env, start);
    if ore {
      StackRuns(Drop, Ops2(PushInt(2), Else, stone), env, Enter(start, Taken));
      PushIntRuns(2, Cons(Else, stone), env, Enter(Enter(vm, Taken), Taken));
      BranchRuns(Else, stone, env, PushNumber(Enter(Enter(vm, Taken), Taken), 2));
      StoneSkips(limit, LockedCode(next), env, PushNumber(Enter(Enter(vm, Taken), NotTaken), 2));
      LockedSkips(next, env, PushNumber(vm, 2), NotTaken);
    } else {
      SkippedRun(take, 2, env, Enter(start, NotTaken));
      BranchRuns(Else, stone, env, Enter(start, NotTaken));
      StoneRuns(limit, bucket, LockedCode(next), env, Enter(Enter(vm, Taken), Taken));
      LockedSkips(next, env, PushNumber(vm, Bit(bucket < limit)), Taken);
    }
  }

  lemma UnlockedSkips(bucket: nat, next: Code, env: Env, vm: Vm)
    requires Live(vm)
    ensures Exec(UnlockedCode(next), env, PushNumber(Enter(vm, NotTaken), bucket))
         == Exec(next, env, PushNumber(vm, MaterialOf(bucket, 0).Code()))
  {
    hide Exec, Encode, StackStep, CheckStep, BytesStep, PacketStep, AssetStep, Binary, StoneCode, LockedCode;
    var start := PushNumber(Enter(vm, NotTaken), bucket);
    var limit := IRON_ORE_DROP_BASIS_POINTS + STONE_DROP_BASIS_POINTS;
    Unfolding(7, UnlockedCode(next), env, start);
    StoneSkips(limit, LockedCode(next), env, Enter(start, Skipped));
    LockedRuns(bucket, next, env, vm);
  }

  lemma SelectRuns(input: nat, xp: AssetId, bucket: nat, next: Code, env: Env, vm: Vm)
    requires Live(vm)
    ensures Exec(SelectCode(input, xp, next), env, PushNumber(vm, bucket))
         == Exec(next, env, PushNumber(vm, MaterialOf(bucket, Held(env, Input(input), xp)).Code()))
  {
    hide Exec, Step, Encode, UnlockedCode, BalanceCode, Held;
    var held := Held(env, Input(input), xp);
    var unlocked := UnlockedCode(next);
    var start := PushNumber(vm, bucket);
    BalanceRuns(Input(input), xp, Ops3(PushInt(IRON_ORE_UNLOCK_XP_BALANCE - 1), GreaterThan, If, unlocked), env, start);
    ConstantRuns(GreaterThan, held, IRON_ORE_UNLOCK_XP_BALANCE - 1, Cons(If, unlocked), env, start);
    IfRuns(held >= IRON_ORE_UNLOCK_XP_BALANCE, unlocked, env, start);
    if held >= IRON_ORE_UNLOCK_XP_BALANCE { UnlockedRuns(bucket, next, env, vm); }
    else { UnlockedSkips(bucket, next, env, vm); }
  }

  /** The compiled material program computes the host's disjoint material buckets from the next roll. */
  lemma MaterialRefinesHost(input: nat, xp: AssetId, next: Code, env: Env, vm: Vm)
    requires Live(vm)
    ensures Exec(MaterialCode(input, xp, next), env, vm)
         == Exec(next, env, match RollAt(env, OfOutput)
                            case None => Halted
                            case Some(roll) => PushNumber(vm, MaterialDrop(env.sha, roll, Held(env, Input(input), xp), true).Code()))
  {
    hide Exec, Step, Encode, SelectCode, BucketCode, InspectPacketCode, BucketFold, WidthCode, Held;
    var select := BucketCode(SelectCode(input, xp, next));
    var hash := Ops2(Cat, Sha256, select);
    var inspect := InspectPacketCode(PLAYER_ROLL_PACKET_TYPE, OfOutput, WidthCode(32, hash));
    var domain := Push(vm, MATERIAL_ROLL_DOMAIN);
    PushBytesRuns(MATERIAL_ROLL_DOMAIN, inspect, env, vm);
    InspectPacketRuns(PLAYER_ROLL_PACKET_TYPE, OfOutput, WidthCode(32, hash), env, domain);
    ExecHalted(WidthCode(32, hash), env);
    ExecHalted(hash, env);
    ExecHalted(next, env);
    match PacketAt(env, PLAYER_ROLL_PACKET_TYPE, OfOutput) {
      case None =>
      case Some(roll) =>
        WidthRuns(32, roll, hash, env, domain);
        var preimage := MATERIAL_ROLL_DOMAIN + roll;
        BytesRuns(Cat, Cons(Sha256, select), env, Push(domain, roll));
        BytesRuns(Sha256, select, env, Push(vm, preimage));
        BucketRuns(env.sha(preimage), SelectCode(input, xp, next), env, vm);
        SelectRuns(input, xp, BucketFold(env.sha(preimage)), next, env, vm);
    }
  }

  /** The same by literal buckets: the whole little-endian hash modulo 10,000 picks 2, 1 or 0. */
  lemma MaterialRunsByBytes(input: nat, xp: AssetId, next: Code, env: Env, vm: Vm)
    requires Live(vm) && RollAt(env, OfOutput).Some?
    ensures var b := LittleEndian(env.sha(Ascii("woodland.sh/material-roll/v1") + RollAt(env, OfOutput).value)) % 10_000;
            Exec(MaterialCode(input, xp, next), env, vm)
            == Exec(next, env, PushNumber(vm, if Held(env, Input(input), xp) >= 47
                                              then (if b < 200 then 2 else if b < 1_200 then 1 else 0)
                                              else if b < 1_000 then 1 else 0))
  {
    hide Exec, MaterialCode, Held, MaterialDrop;
    MaterialRefinesHost(input, xp, next, env, vm);
    MaterialByBytes(env.sha, RollAt(env, OfOutput).value, Held(env, Input(input), xp), true);
  }
}
