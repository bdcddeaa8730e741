/**
 Opcode fragments shared by every covenant, each with the exact effect of running it.
 A fragment takes the code that follows it, so a covenant reads in emission order.
*/
module CovenantFragments {
  import opened Common
  import opened ScriptNumber
  import opened ScriptMachine
  import opened PlayerRules

  /** Where a state packet is read: the transaction that created an input, or this transaction. */
  datatype Source = OfInput(index: nat) | OfOutput

  predicate Live(vm: Vm) { vm.Vm? && Executing(vm.cond) }

  /** Inside a branch that is not taken. */
  predicate Dead(vm: Vm) { vm.Vm? && !Executing(vm.cond) }

  function Push(vm: Vm, x: Bytes): (r: Vm)
    requires vm.Vm?
    ensures r.Vm?
  {
    vm.(main := Cons(x, vm.main))
  }

  function PushNumber(vm: Vm, n: int): (r: Vm)
    requires vm.Vm?
    ensures r.Vm?
  {
    Push(vm, Encode(n))
  }

  /** The machine one branch deeper. */
  function Enter(vm: Vm, branch: Branch): Vm
    requires vm.Vm?
  {
    vm.(cond := Cons(branch, vm.cond))
  }

  function PushOrHalt(vm: Vm, n: Option<int>): Vm
    requires vm.Vm?
  {
    match n case Some(v) => PushNumber(vm, v) case None => Halted
  }

  function Bit(b: bool): int { if b then 1 else 0 }

  // ----- single opcodes -----

  lemma PushIntRuns(n: int, next: Code, env: Env, vm: Vm)
    requires Live(vm)
    ensures Exec(Cons(PushInt(n), next), env, vm) == Exec(next, env, PushNumber(vm, n))
  {
    hide Exec, Encode;
    Unfolding(1, Cons(PushInt(n), next), env, vm);
  }

  lemma PushBytesRuns(b: Bytes, next: Code, env: Env, vm: Vm)
    requires Live(vm)
    ensures Exec(Cons(PushBytes(b), next), env, vm) == Exec(next, env, Push(vm, b))
  {
    hide Exec, Encode;
    Unfolding(1, Cons(PushBytes(b), next), env, vm);
  }

  /** The next `n` opcodes, none of them a branch opcode, do nothing in a branch not taken. */
  lemma {:induction false} SkippedRun(code: Code, n: nat, env: Env, vm: Vm)
    requires Dead(vm) && Plain(code, n)
    ensures Exec(code, env, vm) == Exec(After(code, n), env, vm)
  {
    hide Step;
    if n > 0 {
      PlainSkips(code.top, env, vm);
      SkippedRun(code.rest, n - 1, env, vm);
    }
  }

  predicate Plain(code: Code, n: nat)
    decreases n
  {
    n == 0 || (code.Cons? && !code.top.If? && !code.top.Else? && !code.top.EndIf? && Plain(code.rest, n - 1))
  }

  function After(code: Code, n: nat): Code
    requires Plain(code, n)
    decreases n
  {
    if n == 0 then code else After(code.rest, n - 1)
  }

  lemma PlainSkips(op: Op, env: Env, vm: Vm)
    requires Dead(vm) && !op.If? && !op.Else? && !op.EndIf?
    ensures Step(op, env, vm) == vm
  {
    hide StackStep, CheckStep, BytesStep, PacketStep, AssetStep, Binary, BranchStep, Encode;
  }

  predicate StackOp(op: Op) {
    op in {Dup, Drop, TwoDrop, TwoDup, Swap, Over, Rot, Nip, Roll, ToAlt, FromAlt}
  }

  lemma StackRuns(op: Op, next: Code, env: Env, vm: Vm)
    requires Live(vm) && StackOp(op)
    ensures Exec(Cons(op, next), env, vm) == Exec(next, env, StackStep(op, vm))
  {
    hide Exec, StackStep;
    Unfolding(1, Cons(op, next), env, vm);
  }

  lemma BranchRuns(op: Op, next: Code, env: Env, vm: Vm)
    requires vm.Vm? && (op.Else? || op.EndIf?)
    ensures Exec(Cons(op, next), env, vm) == Exec(next, env, BranchStep(op, vm))
  {
    hide Exec, BranchStep;
    Unfolding(1, Cons(op, next), env, vm);
  }

  lemma BytesRuns(op: Op, next: Code, env: Env, vm: Vm)
    requires Live(vm) && op in {Size, Cat, Sha256, ReverseBytes, BinToNum, NumToBin, Not}
    ensures Exec(Cons(op, next), env, vm) == Exec(next, env, BytesStep(op, env, vm))
  {
    hide Exec, BytesStep;
    Unfolding(1, Cons(op, next), env, vm);
  }

  lemma NumericRuns(op: Op, a: int, b: int, next: Code, env: Env, vm: Vm)
    requires Live(vm) && Arithmetic(op, a, b).Some?
    ensures Exec(Cons(op, next), env, PushNumber(PushNumber(vm, a), b))
         == Exec(next, env, PushNumber(vm, Arithmetic(op, a, b).value))
  {
    hide Exec, Encode, Decode, Minimal;
    Encodings();
    Unfolding(1, Cons(op, next), env, PushNumber(PushNumber(vm, a), b));
  }

  lemma EqualRuns(a: int, b: int, next: Code, env: Env, vm: Vm)
    requires Live(vm)
    ensures Exec(Cons(Equal, next), env, PushNumber(PushNumber(vm, a), b)) == Exec(next, env, PushNumber(vm, Bit(a == b)))
  {
    hide Exec, Encode, Decode, Minimal;
    Encodings();
    Unfolding(1, Cons(Equal, next), env, PushNumber(PushNumber(vm, a), b));
  }

  lemma EqualVerifyRuns(a: int, b: int, next: Code, env: Env, vm: Vm)
    requires Live(vm)
    ensures Exec(Cons(EqualVerify, next), env, PushNumber(PushNumber(vm, a), b))
         == Exec(next, env, if a == b then vm else Halted)
  {
    hide Exec, Encode, Decode, Minimal;
    Encodings();
    Unfolding(1, Cons(EqualVerify, next), env, PushNumber(PushNumber(vm, a), b));
  }

  lemma VerifyRuns(b: bool, next: Code, env: Env, vm: Vm)
    requires Live(vm)
    ensures Exec(Cons(Verify, next), env, PushNumber(vm, Bit(b))) == Exec(next, env, if b then vm else Halted)
  {
    hide Exec, Encode, Decode, Minimal;
    Encodings();
    Unfolding(1, Cons(Verify, next), env, PushNumber(vm, Bit(b)));
  }

  /** The branch a condition selects. */
  function Chosen(b: bool): Branch { if b then Taken else NotTaken }

  lemma IfRuns(b: bool, next: Code, env: Env, vm: Vm)
    requires Live(vm)
    ensures Exec(Cons(If, next), env, PushNumber(vm, Bit(b))) == Exec(next, env, Enter(vm, Chosen(b)))
  {
    hide Exec, Encode, Decode, Minimal;
    Encodings();
    Unfolding(1, Cons(If, next), env, PushNumber(vm, Bit(b)));
  }

  lemma IfSkips(next: Code, env: Env, vm: Vm)
    requires Dead(vm)
    ensures Exec(Cons(If, next), env, vm) == Exec(next, env, Enter(vm, Skipped))
  {
    hide Exec, StackStep, CheckStep, BytesStep, PacketStep, AssetStep, Binary, BranchStep, Encode;
    Unfolding(1, Cons(If, next), env, vm);
  }

  /** Compare or add a constant. */
  lemma ConstantRuns(op: Op, n: int, constant: int, next: Code, env: Env, vm: Vm)
    requires Live(vm) && Arithmetic(op, n, constant).Some?
    ensures Exec(Ops2(PushInt(constant), op, next), env, PushNumber(vm, n))
         == Exec(next, env, PushNumber(vm, Arithmetic(op, n, constant).value))
  {
    hide Exec, Step, Arithmetic;
    PushIntRuns(constant, Cons(op, next), env, PushNumber(vm, n));
    NumericRuns(op, n, constant, next, env, vm);
  }

  /** Keep the number on top and enter the branch that compares it with a constant. */
  lemma TierTestRuns(tier: int, n: int, body: Code, env: Env, vm: Vm)
    requires Live(vm)
    ensures Exec(Ops4(Dup, PushInt(tier), Equal, If, body), env, PushNumber(vm, n))
         == Exec(body, env, PushNumber(Enter(vm, Chosen(n == tier)), n))
  {
    hide Exec, Step, Encode;
    var start := PushNumber(vm, n);
    StackRuns(Dup, Ops3(PushInt(tier), Equal, If, body), env, start);
    PushIntRuns(tier, Ops2(Equal, If, body), env, PushNumber(start, n));
    EqualRuns(n, tier, Cons(If, body), env, start);
    IfRuns(n == tier, body, env, start);
  }

  /** Read the altstack bit, keep it there, and test `out + bit == in`. */
  function SumCheckCode(next: Code): Code { Ops5(FromAlt, Dup, ToAlt, Add, EqualVerify, next) }

  function OnAlt(vm: Vm, n: int): (r: Vm)
    requires vm.Vm?
    ensures r.Vm?
  {
    vm.(alt := Cons(Encode(n), vm.alt))
  }

  lemma KeptBitRuns(bit: int, next: Code, env: Env, vm: Vm)
    requires Live(vm)
    ensures Exec(Ops3(FromAlt, Dup, ToAlt, next), env, OnAlt(vm, bit)) == Exec(next, env, PushNumber(OnAlt(vm, bit), bit))
  {
    hide Exec, Step, Encode;
    StackRuns(FromAlt, Ops2(Dup, ToAlt, next), env, OnAlt(vm, bit));
    StackRuns(Dup, Cons(ToAlt, next), env, PushNumber(vm, bit));
    StackRuns(ToAlt, next, env, PushNumber(PushNumber(vm, bit), bit));
  }

  lemma SumCheckRuns(before: int, after: int, bit: int, next: Code, env: Env, vm: Vm)
    requires Live(vm)
    ensures Exec(SumCheckCode(next), env, PushNumber(PushNumber(OnAlt(vm, bit), before), after))
         == Exec(next, env, if before == after + bit then OnAlt(vm, bit) else Halted)
  {
    hide Exec, Step, Encode;
    var stacked := PushNumber(PushNumber(vm, before), after);
    KeptBitRuns(bit, Ops2(Add, EqualVerify, next), env, stacked);
    NumericRuns(Add, after, bit, Cons(EqualVerify, next), env, PushNumber(OnAlt(vm, bit), before));
    EqualVerifyRuns(before, after + bit, next, env, OnAlt(vm, bit));
  }

  function PacketAt(env: Env, packetType: nat, source: Source): Option<Bytes> {
    match source
    case OfInput(i) =>
      if (packetType, i) in env.inputPackets then Some(env.inputPackets[(packetType, i)]) else None
    case OfOutput => if packetType in env.packets then Some(env.packets[packetType]) else None
  }

  // ----- packets -----

  function InspectPacketCode(packetType: nat, source: Source, next: Code): Code {
    match source
    case OfInput(i) => Ops3(PushInt(packetType), PushInt(i), InspectInputPacket, RequireFound(next))
    case OfOutput => Ops2(PushInt(packetType), InspectPacket, RequireFound(next))
  }

  function RequireFound(next: Code): Code { Ops2(PushInt(1), EqualVerify, next) }

  lemma RequireFoundRuns(value: Option<Bytes>, next: Code, env: Env, vm: Vm)
    requires Live(vm)
    ensures Exec(RequireFound(next), env, PushOptional(vm, value))
         == Exec(next, env, match value case Some(p) => Push(vm, p) case None => Halted)
  {
    hide Exec, Encode, Decode, Minimal, StackStep, BytesStep, PacketStep, AssetStep, Binary;
    Encodings();
    Unfolding(2, RequireFound(next), env, PushOptional(vm, value));
  }

  lemma InspectPacketRuns(packetType: nat, source: Source, next: Code, env: Env, vm: Vm)
    requires Live(vm)
    ensures Exec(InspectPacketCode(packetType, source, next), env, vm)
         == Exec(next, env, match PacketAt(env, packetType, source)
                            case Some(p) => Push(vm, p)
                            case None => Halted)
  {
    hide Exec, Encode, Decode, Minimal, StackStep, BytesStep, CheckStep, AssetStep, Binary;
    Encodings();
    var value := PacketAt(env, packetType, source);
    RequireFoundRuns(value, next, env, vm);
    match source {
      case OfInput(i) => Unfolding(3, InspectPacketCode(packetType, source, next), env, vm);
      case OfOutput => Unfolding(2, InspectPacketCode(packetType, source, next), env, vm);
    }
  }

  function WidthCode(width: nat, next: Code): Code { Ops3(Size, PushInt(width), EqualVerify, next) }

  lemma WidthRuns(width: nat, packet: Bytes, next: Code, env: Env, vm: Vm)
    requires Live(vm)
    ensures Exec(WidthCode(width, next), env, Push(vm, packet))
         == Exec(next, env, if |packet| == width then Push(vm, packet) else Halted)
  {
    hide Exec, Encode, Decode, Minimal, PacketStep, AssetStep, Binary;
    Encodings();
    Unfolding(3, WidthCode(width, next), env, Push(vm, packet));
  }

  /** Keep a packet's number, but only if the packet is that number's unique encoding. */
  function CanonicalCode(width: nat, next: Code): Code {
    Ops4(Dup, BinToNum, Dup, PushInt(width), Ops3(NumToBin, Rot, EqualVerify, next))
  }

  lemma CanonicalRuns(width: nat, packet: Bytes, next: Code, env: Env, vm: Vm)
    requires Live(vm)
    ensures Exec(CanonicalCode(width, next), env, Push(vm, packet))
         == Exec(next, env, if ToFixedWidth(Decode(packet), width) == Some(packet)
                            then PushNumber(vm, Decode(packet)) else Halted)
  {
    hide Exec, Encode, Decode, Minimal, ToFixedWidth, PacketStep, AssetStep, Binary;
    Encodings();
    var check := Ops3(NumToBin, Rot, EqualVerify, next);
    var number := Push(PushNumber(Push(vm, packet), Decode(packet)), Encode(Decode(packet)));
    Unfolding(4, CanonicalCode(width, next), env, Push(vm, packet));
    assert Exec(CanonicalCode(width, next), env, Push(vm, packet)) == Exec(check, env, PushNumber(number, width));
    Unfolding(3, check, env, PushNumber(number, width));
  }

  function RequireAbove(low: int, next: Code): Code { Ops4(Dup, PushInt(low), GreaterThan, Verify, next) }

  lemma RequireAboveRuns(low: int, n: int, next: Code, env: Env, vm: Vm)
    requires Live(vm)
    ensures Exec(RequireAbove(low, next), env, PushNumber(vm, n))
         == Exec(next, env, if n > low then PushNumber(vm, n) else Halted)
  {
    hide Exec, Step, Encode;
    StackRuns(Dup, Ops3(PushInt(low), GreaterThan, Verify, next), env, PushNumber(vm, n));
    ConstantRuns(GreaterThan, n, low, Cons(Verify, next), env, PushNumber(vm, n));
    VerifyRuns(n > low, next, env, PushNumber(vm, n));
  }

  function RequireBelow(limit: int, next: Code): Code { Ops4(Dup, PushInt(limit), LessThan, Verify, next) }

  lemma RequireBelowRuns(limit: int, n: int, next: Code, env: Env, vm: Vm)
    requires Live(vm)
    ensures Exec(RequireBelow(limit, next), env, PushNumber(vm, n))
         == Exec(next, env, if n < limit then PushNumber(vm, n) else Halted)
  {
    hide Exec, Step, Encode;
    StackRuns(Dup, Ops3(PushInt(limit), LessThan, Verify, next), env, PushNumber(vm, n));
    ConstantRuns(LessThan, n, limit, Cons(Verify, next), env, PushNumber(vm, n));
    VerifyRuns(n < limit, next, env, PushNumber(vm, n));
  }

  /** A bounded non-negative number packet. */
  function NumberPacketCode(packetType: nat, source: Source, width: nat, limit: nat, next: Code): Code {
    InspectPacketCode(packetType, source,
      WidthCode(width, CanonicalCode(width, RequireAbove(-1, RequireBelow(limit, next)))))
  }

  function NumberAt(env: Env, packetType: nat, source: Source, width: nat, limit: nat): Option<nat> {
    match PacketAt(env, packetType, source)
    case None => None
    case Some(p) => ScriptPacket(p, width, limit)
  }

  lemma NumberPacketRuns(packetType: nat, source: Source, width: nat, limit: nat, next: Code, env: Env, vm: Vm)
    requires Live(vm)
    ensures Exec(NumberPacketCode(packetType, source, width, limit, next), env, vm)
         == Exec(next, env, PushOrHalt(vm, NumberAt(env, packetType, source, width, limit)))
  {
    hide Exec;
    var bounded := RequireBelow(limit, next);
    var signed := RequireAbove(-1, bounded);
    var canonical := CanonicalCode(width, signed);
    InspectPacketRuns(packetType, source, WidthCode(width, canonical), env, vm);
    ExecHalted(WidthCode(width, canonical), env);
    ExecHalted(canonical, env);
    ExecHalted(signed, env);
    ExecHalted(bounded, env);
    ExecHalted(next, env);
    match PacketAt(env, packetType, source) {
      case None =>
      case Some(p) =>
        WidthRuns(width, p, canonical, env, vm);
        CanonicalRuns(width, p, signed, env, vm);
        RequireAboveRuns(-1, Decode(p), bounded, env, vm);
        RequireBelowRuns(limit, Decode(p), next, env, vm);
    }
  }

  // ----- asset lookups -----

  datatype Side = Input(index: nat) | Output(index: nat)

  function AmountAt(env: Env, side: Side, asset: AssetId): Option<nat> {
    match side
    case Input(i) => InputAmount(env, i, asset)
    case Output(i) => OutputAmount(env, i, asset)
  }

  /** The balance a lookup reports: zero where nothing is assigned. */
  function Held(env: Env, side: Side, asset: AssetId): nat {
    match AmountAt(env, side, asset) case Some(n) => n case None => 0
  }

  function LookupOp(side: Side): Op {
    if side.Input? then InspectInAssetLookup else InspectOutAssetLookup
  }

  /** Lookup that leaves `(0, 0)` when the asset's group is absent. */
  function OptionalLookupCode(side: Side, asset: AssetId, next: Code): Code {
    Ops4(PushBytes(asset.txid), PushInt(asset.group), FindAssetGroup, If, FoundLookupCode(side, asset, next))
  }

  function FoundLookupCode(side: Side, asset: AssetId, next: Code): Code {
    Cons(Drop, LookupCode(side, asset, MissingLookupCode(next)))
  }

  function LookupCode(side: Side, asset: AssetId, next: Code): Code {
    Ops4(PushInt(side.index), PushBytes(asset.txid), PushInt(asset.group), LookupOp(side), next)
  }

  function MissingLookupCode(next: Code): Code {
    Ops5(Else, Drop, PushInt(0), PushInt(0), EndIf, next)
  }

  lemma LookupRuns(side: Side, asset: AssetId, next: Code, env: Env, vm: Vm)
    requires Live(vm)
    ensures Exec(LookupCode(side, asset, next), env, vm) == Exec(next, env, PushAmount(vm, AmountAt(env, side, asset)))
  {
    hide Exec, Encode, Decode, Minimal, StackStep, BytesStep, CheckStep, PacketStep, Binary, InputAmount, OutputAmount;
    Encodings();
    Unfolding(4, LookupCode(side, asset, next), env, vm);
    assert AssetId(asset.txid, asset.group) == asset;
  }

  /** Code inside a branch that is not taken changes nothing. */
  lemma FoundLookupSkips(side: Side, asset: AssetId, next: Code, env: Env, vm: Vm)
    requires Dead(vm)
    ensures Exec(FoundLookupCode(side, asset, next), env, vm) == Exec(MissingLookupCode(next), env, vm)
  {
    hide Exec, Step;
    SkippedRun(FoundLookupCode(side, asset, next), 5, env, vm);
  }

  lemma MissingLookupRuns(next: Code, env: Env, vm: Vm, top: Bytes, branch: Branch)
    requires Live(vm) && !branch.Skipped?
    ensures Exec(MissingLookupCode(next), env, Push(Enter(vm, branch), top))
         == Exec(next, env, if branch.Taken? then Push(vm, top) else PushNumber(PushNumber(vm, 0), 0))
  {
    hide Exec, Step, Encode;
    var zeros := Ops3(PushInt(0), PushInt(0), EndIf, next);
    BranchRuns(Else, Cons(Drop, zeros), env, Push(Enter(vm, branch), top));
    if branch.Taken? {
      SkippedRun(Cons(Drop, zeros), 3, env, Push(Enter(vm, NotTaken), top));
      BranchRuns(EndIf, next, env, Push(Enter(vm, NotTaken), top));
    } else {
      var inside := Enter(vm, Taken);
      StackRuns(Drop, zeros, env, Push(inside, top));
      PushIntRuns(0, Ops2(PushInt(0), EndIf, next), env, inside);
      PushIntRuns(0, Cons(EndIf, next), env, PushNumber(inside, 0));
      BranchRuns(EndIf, next, env, PushNumber(PushNumber(inside, 0), 0));
    }
  }

  /** What an optional lookup leaves: the presence flag over the amount. */
  function PushLookup(vm: Vm, env: Env, side: Side, asset: AssetId): Vm
    requires vm.Vm?
  {
    PushNumber(PushNumber(vm, Held(env, side, asset)), if AmountAt(env, side, asset).Some? then 1 else 0)
  }

  lemma FindGroupRuns(asset: AssetId, next: Code, env: Env, vm: Vm)
    requires Live(vm)
    ensures Exec(Ops3(PushBytes(asset.txid), PushInt(asset.group), FindAssetGroup, next), env, vm)
         == Exec(next, env, PushNumber(PushNumber(vm, GroupPosition(env.groups, asset)), Bit(FindGroup(env.groups, asset).Some?)))
  {
    hide Exec, Encode, Decode, Minimal, GroupPosition, FindGroup, StackStep, CheckStep, BytesStep, PacketStep, Binary;
    Encodings();
    assert AssetId(asset.txid, asset.group) == asset;
    Unfolding(3, Ops3(PushBytes(asset.txid), PushInt(asset.group), FindAssetGroup, next), env, vm);
  }

  lemma OptionalLookupRuns(side: Side, asset: AssetId, next: Code, env: Env, vm: Vm)
    requires Live(vm)
    ensures Exec(OptionalLookupCode(side, asset, next), env, vm)
         == Exec(next, env, PushLookup(vm, env, side, asset))
  {
    hide Exec, Step, Encode, MissingLookupCode, FoundLookupCode;
    var found := FindGroup(env.groups, asset).Some?;
    var position := GroupPosition(env.groups, asset);
    FindGroupRuns(asset, Cons(If, FoundLookupCode(side, asset, next)), env, vm);
    IfRuns(found, FoundLookupCode(side, asset, next), env, PushNumber(vm, position));
    if found {
      FoundLookupRuns(side, asset, next, env, vm, Encode(position));
    } else {
      FoundLookupSkips(side, asset, next, env, PushNumber(Enter(vm, NotTaken), position));
      MissingLookupRuns(next, env, vm, Encode(position), NotTaken);
    }
  }

  lemma FoundLookupRuns(side: Side, asset: AssetId, next: Code, env: Env, vm: Vm, position: Bytes)
    requires Live(vm)
    ensures Exec(FoundLookupCode(side, asset, next), env, Push(Enter(vm, Taken), position))
         == Exec(next, env, PushLookup(vm, env, side, asset))
  {
    hide Exec, Step, Encode, AmountAt, LookupCode;
    var taken := Enter(vm, Taken);
    StackRuns(Drop, LookupCode(side, asset, MissingLookupCode(next)), env, Push(taken, position));
    LookupRuns(side, asset, MissingLookupCode(next), env, taken);
    var looked := PushAmount(taken, AmountAt(env, side, asset));
    BranchRuns(Else, Ops4(Drop, PushInt(0), PushInt(0), EndIf, next), env, looked);
    var closed := PushAmount(Enter(vm, NotTaken), AmountAt(env, side, asset));
    SkippedRun(Ops4(Drop, PushInt(0), PushInt(0), EndIf, next), 3, env, closed);
    BranchRuns(EndIf, next, env, closed);
  }

  lemma OptionalLookupSkips(side: Side, asset: AssetId, next: Code, env: Env, vm: Vm)
    requires Dead(vm)
    ensures Exec(OptionalLookupCode(side, asset, next), env, vm) == Exec(next, env, vm)
  {
    hide Exec, Step, Encode;
    var found := FoundLookupCode(side, asset, next);
    SkippedRun(OptionalLookupCode(side, asset, next), 3, env, vm);
    IfSkips(found, env, vm);
    FoundLookupSkips(side, asset, next, env, Enter(vm, Skipped));
    BranchRuns(Else, Ops4(Drop, PushInt(0), PushInt(0), EndIf, next), env, Enter(vm, Skipped));
    SkippedRun(Ops4(Drop, PushInt(0), PushInt(0), EndIf, next), 3, env, Enter(vm, Skipped));
    BranchRuns(EndIf, next, env, Enter(vm, Skipped));
  }

  /** Optional lookup whose presence flag is dropped: the balance alone. */
  function BalanceCode(side: Side, asset: AssetId, next: Code): Code {
    OptionalLookupCode(side, asset, Cons(Drop, next))
  }

  lemma BalanceRuns(side: Side, asset: AssetId, next: Code, env: Env, vm: Vm)
    requires Live(vm)
    ensures Exec(BalanceCode(side, asset, next), env, vm)
         == Exec(next, env, PushNumber(vm, Held(env, side, asset)))
  {
    hide Exec, Step, Encode, OptionalLookupCode, AmountAt, Held;
    OptionalLookupRuns(side, asset, Cons(Drop, next), env, vm);
    StackRuns(Drop, next, env, PushLookup(vm, env, side, asset));
  }

  lemma BalanceSkips(side: Side, asset: AssetId, next: Code, env: Env, vm: Vm)
    requires Dead(vm)
    ensures Exec(BalanceCode(side, asset, next), env, vm) == Exec(next, env, vm)
  {
    hide Exec, Step, OptionalLookupCode;
    OptionalLookupSkips(side, asset, Cons(Drop, next), env, vm);
    SkippedRun(Cons(Drop, next), 1, env, vm);
  }
}
