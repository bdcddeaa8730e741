/**
 The Arkade Script machine: flat opcode lists over byte-string stacks, with an
 altstack and a condition stack for nested IF/ELSE/ENDIF.
*/
module ScriptMachine {
  import opened Common
  import opened ScriptNumber

  datatype List<T> = Nil | Cons(top: T, rest: List<T>)

  /** One group of the current transaction's asset packet: local (index, amount) assignments. */
  datatype AssetGroup = AssetGroup(asset: AssetId, inputs: seq<(nat, nat)>, outputs: seq<(nat, nat)>)

  /** Everything introspection opcodes can read while one input is checked. */
  datatype Env = Env(
    sha: Bytes -> Digest,
    groups: seq<AssetGroup>,
    inputPackets: map<(nat, nat), Bytes>,   // (packet type, input index)
    packets: map<nat, Bytes>,               // packets of this transaction's extension
    inputPrograms: map<nat, Bytes>,         // witness-v1 programs of the inputs
    outputPrograms: map<nat, Bytes>,        // witness-v1 programs of the outputs
    inputValues: map<nat, nat>,             // satoshis
    outputValues: map<nat, nat>,
    outpoints: map<nat, (Digest, nat)>,     // what the inputs spend
    tweaks: (Bytes, Bytes, Bytes) -> bool)  // TWEAKVERIFY on (internal key, tweak, output point)

  datatype Op =
    | PushInt(n: int) | PushBytes(b: Bytes)
    | Dup | Drop | TwoDrop | TwoDup | Swap | Over | Rot | Nip | Roll | ToAlt | FromAlt
    | If | Else | EndIf | Verify | Equal | EqualVerify
    | Size | Cat | Sha256 | ReverseBytes | BinToNum | NumToBin
    | Not | BoolAnd | Add | Sub | Mod
    | LessThan | GreaterThan | LessThanOrEqual | GreaterThanOrEqual
    | InspectPacket | InspectInputPacket
    | FindAssetGroup | InspectInAssetLookup | InspectOutAssetLookup
    | InspectInAssetCount | InspectOutAssetCount
    | InspectInputScriptPubKey | TweakVerify
    | InspectOutputScriptPubKey | InspectInputValue | InspectOutputValue
    | InspectInputOutpoint | InspectAssetGroupAssetId

  type Code = List<Op>

  /** One open IF: branch taken, branch not taken, or wholly inside a branch not taken. */
  datatype Branch = Taken | NotTaken | Skipped

  datatype Vm = Vm(main: List<Bytes>, alt: List<Bytes>, cond: List<Branch>) | Halted

  predicate Executing(cond: List<Branch>) {
    cond.Nil? || cond.top.Taken?
  }

  // ----- introspected asset amounts -----

  function Assigned(entries: seq<(nat, nat)>, index: nat): Option<nat> {
    if entries == [] then None
    else if entries[0].0 == index then Some(entries[0].1)
    else Assigned(entries[1..], index)
  }

  function FindGroup(groups: seq<AssetGroup>, asset: AssetId): (g: Option<AssetGroup>)
    ensures g.Some? ==> g.value in groups && g.value.asset == asset
    ensures g.None? ==> forall h <- groups :: h.asset != asset
  {
    if groups == [] then None
    else if groups[0].asset == asset then Some(groups[0])
    else FindGroup(groups[1..], asset)
  }

  function GroupPosition(groups: seq<AssetGroup>, asset: AssetId): nat {
    if groups == [] || groups[0].asset == asset then 0 else 1 + GroupPosition(groups[1..], asset)
  }

  function InputAmount(env: Env, input: nat, asset: AssetId): Option<nat> {
    match FindGroup(env.groups, asset)
    case None => None
    case Some(g) => Assigned(g.inputs, input)
  }

  function OutputAmount(env: Env, output: nat, asset: AssetId): Option<nat> {
    match FindGroup(env.groups, asset)
    case None => None
    case Some(g) => Assigned(g.outputs, output)
  }

  function InputCount(groups: seq<AssetGroup>, input: nat): nat {
    if groups == [] then 0
    else (if Assigned(groups[0].inputs, input).Some? then 1 else 0) + InputCount(groups[1..], input)
  }

  function OutputCount(groups: seq<AssetGroup>, output: nat): nat {
    if groups == [] then 0
    else (if Assigned(groups[0].outputs, output).Some? then 1 else 0) + OutputCount(groups[1..], output)
  }

  // ----- one opcode -----

  function Flag(b: bool): Bytes { Encode(if b then 1 else 0) }

  function PushOptional(vm: Vm, value: Option<Bytes>): Vm
    requires vm.Vm?
  {
    match value
    case Some(b) => vm.(main := Cons(Flag(true), Cons(b, vm.main)))
    case None => vm.(main := Cons(Flag(false), Cons([], vm.main)))
  }

  function PushAmount(vm: Vm, value: Option<nat>): Vm
    requires vm.Vm?
  {
    match value
    case Some(n) => vm.(main := Cons(Flag(true), Cons(Encode(n), vm.main)))
    case None => vm.(main := Cons(Flag(false), Cons(Encode(0), vm.main)))
  }

  /** The element `n` places below the top, and the stack without it. */
  function TakeAt(s: List<Bytes>, n: nat): Option<(Bytes, List<Bytes>)> {
    match s
    case Nil => None
    case Cons(x, rest) =>
      if n == 0 then Some((x, rest))
      else match TakeAt(rest, n - 1)
           case None => None
           case Some((y, below)) => Some((y, Cons(x, below)))
  }

  /** Remainder with the sign of the dividend. */
  function Remainder(a: int, b: int): int
    requires b != 0
  {
    if a >= 0 then a % b else -((-a) % b)
  }

  /** Result of a two-operand numeric opcode on operands `a` (below) and `b` (top). */
  function Arithmetic(op: Op, a: int, b: int): Option<int> {
    match op
    case Add => Some(a + b)
    case Sub => Some(a - b)
    case Mod => if b == 0 then None else Some(Remainder(a, b))
    case LessThan => Truth(a < b)
    case GreaterThan => Truth(a > b)
    case LessThanOrEqual => Truth(a <= b)
    case GreaterThanOrEqual => Truth(a >= b)
    case BoolAnd => Truth(a != 0 && b != 0)
    case _ => None
  }

  function Truth(b: bool): Option<int> { Some(if b then 1 else 0) }

  function Binary(op: Op, vm: Vm): Vm
    requires vm.Vm?
  {
    match vm.main
    case Cons(b, Cons(a, rest)) =>
      if Minimal(a) && Minimal(b) && Arithmetic(op, Decode(a), Decode(b)).Some?
      then vm.(main := Cons(Encode(Arithmetic(op, Decode(a), Decode(b)).value), rest))
      else Halted
    case _ => Halted
  }

  function StackStep(op: Op, vm: Vm): Vm
    requires vm.Vm?
  {
    match op
    case Dup => (match vm.main case Cons(x, _) => vm.(main := Cons(x, vm.main)) case _ => Halted)
    case Drop => (match vm.main case Cons(_, r) => vm.(main := r) case _ => Halted)
    case TwoDrop => (match vm.main case Cons(_, Cons(_, r)) => vm.(main := r) case _ => Halted)
    case TwoDup =>
      (match vm.main case Cons(x, Cons(y, _)) => vm.(main := Cons(x, Cons(y, vm.main))) case _ => Halted)
    case Swap =>
      (match vm.main case Cons(x, Cons(y, r)) => vm.(main := Cons(y, Cons(x, r))) case _ => Halted)
    case Over =>
      (match vm.main case Cons(x, Cons(y, r)) => vm.(main := Cons(y, vm.main)) case _ => Halted)
    case Nip => (match vm.main case Cons(x, Cons(_, r)) => vm.(main := Cons(x, r)) case _ => Halted)
    case Rot =>
      (match vm.main
       case Cons(x, Cons(y, Cons(z, r))) => vm.(main := Cons(z, Cons(x, Cons(y, r))))
       case _ => Halted)
    case Roll =>
      (match vm.main
       case Cons(n, r) =>
         if Minimal(n) && Decode(n) >= 0 && TakeAt(r, Decode(n)).Some?
         then var (x, below) := TakeAt(r, Decode(n)).value; vm.(main := Cons(x, below)) else Halted
       case _ => Halted)
    case ToAlt =>
      (match vm.main case Cons(x, r) => vm.(main := r, alt := Cons(x, vm.alt)) case _ => Halted)
    case FromAlt =>
      (match vm.alt case Cons(x, r) => vm.(main := Cons(x, vm.main), alt := r) case _ => Halted)
    case _ => Halted
  }

  /** ELSE and ENDIF act whether or not the current branch executes. */
  function BranchStep(op: Op, vm: Vm): Vm
    requires vm.Vm?
  {
    match op
    case Else =>
      (match vm.cond
       case Cons(b, outer) =>
         vm.(cond := Cons(match b case Taken => NotTaken case NotTaken => Taken case Skipped => Skipped, outer))
       case _ => Halted)
    case EndIf => (match vm.cond case Cons(_, outer) => vm.(cond := outer) case _ => Halted)
    case _ => Halted
  }

  function CheckStep(op: Op, vm: Vm): Vm
    requires vm.Vm?
  {
    match op
    // The branch argument must be exactly empty or one, as BIP342 requires.
    case If =>
      (match vm.main
       case Cons(x, r) =>
         if x == Flag(true) then vm.(main := r, cond := Cons(Taken, vm.cond))
         else if x == Flag(false) then vm.(main := r, cond := Cons(NotTaken, vm.cond))
         else Halted
       case _ => Halted)
    case Verify =>
      (match vm.main case Cons(x, r) => if Decode(x) != 0 then vm.(main := r) else Halted case _ => Halted)
    case Equal =>
      (match vm.main case Cons(x, Cons(y, r)) => vm.(main := Cons(Flag(x == y), r)) case _ => Halted)
    case EqualVerify =>
      (match vm.main case Cons(x, Cons(y, r)) => if x == y then vm.(main := r) else Halted case _ => Halted)
    case _ => Halted
  }

  function BytesStep(op: Op, env: Env, vm: Vm): Vm
    requires vm.Vm?
  {
    match op
    case Size =>
      (match vm.main case Cons(x, _) => vm.(main := Cons(Encode(|x|), vm.main)) case _ => Halted)
    case Cat =>
      (match vm.main case Cons(x, Cons(y, r)) => vm.(main := Cons(y + x, r)) case _ => Halted)
    case Sha256 =>
      (match vm.main case Cons(x, r) => vm.(main := Cons(env.sha(x), r)) case _ => Halted)
    case ReverseBytes =>
      (match vm.main case Cons(x, r) => vm.(main := Cons(Reversed(x), r)) case _ => Halted)
    case BinToNum =>
      (match vm.main case Cons(x, r) => vm.(main := Cons(Encode(Decode(x)), r)) case _ => Halted)
    case NumToBin =>
      (match vm.main
       case Cons(size, Cons(x, r)) =>
         if Minimal(size) && Decode(size) >= 0 && ToFixedWidth(Decode(x), Decode(size)).Some?
         then vm.(main := Cons(ToFixedWidth(Decode(x), Decode(size)).value, r)) else Halted
       case _ => Halted)
    case Not =>
      (match vm.main
       case Cons(x, r) => if Minimal(x) then vm.(main := Cons(Flag(Decode(x) == 0), r)) else Halted
       case _ => Halted)
    case _ => Halted
  }

  /** A non-negative integer operand: packet types, indexes and group positions. */
  function Index(b: Bytes): Option<nat> {
    if Minimal(b) && Decode(b) >= 0 then Some(Decode(b)) else None
  }

  function AssetOperand(group: Bytes, txid: Bytes): Option<AssetId> {
    if Index(group).Some? && Index(group).value < 0x1_0000 && |txid| == 32 then Some(AssetId(txid, Index(group).value)) else None
  }

  function PacketStep(op: Op, env: Env, vm: Vm): Vm
    requires vm.Vm?
  {
    match op
    case InspectPacket =>
      (match vm.main
       case Cons(t, r) =>
         if Index(t).None? then Halted
         else
           var packetType := Index(t).value;
           PushOptional(vm.(main := r),
                        if packetType in env.packets then Some(env.packets[packetType]) else None)
       case _ => Halted)
    case InspectInputPacket =>
      (match vm.main
       case Cons(i, Cons(t, r)) =>
         if Index(t).None? || Index(i).None? then Halted
         else
           var key := (Index(t).value, Index(i).value);
           PushOptional(vm.(main := r),
                        if key in env.inputPackets then Some(env.inputPackets[key]) else None)
       case _ => Halted)
    // Pushes the program, then the witness version: one for the taproot inputs modelled here.
    case InspectInputScriptPubKey =>
      (match vm.main
       case Cons(i, r) =>
         if Index(i).Some? && Index(i).value in env.inputPrograms
         then vm.(main := Cons(Encode(1), Cons(env.inputPrograms[Index(i).value], r))) else Halted
       case _ => Halted)
    case TweakVerify =>
      (match vm.main
       case Cons(q, Cons(k, Cons(p, r))) => if env.tweaks(p, k, q) then vm.(main := r) else Halted
       case _ => Halted)
    case _ => Halted
  }

  function AssetStep(op: Op, env: Env, vm: Vm): Vm
    requires vm.Vm?
  {
    match op
    case FindAssetGroup =>
      (match vm.main
       case Cons(g, Cons(txid, r)) =>
         if AssetOperand(g, txid).None? then Halted
         else
           var asset := AssetOperand(g, txid).value;
           vm.(main := Cons(Flag(FindGroup(env.groups, asset).Some?),
                            Cons(Encode(GroupPosition(env.groups, asset)), r)))
       case _ => Halted)
    case InspectInAssetLookup =>
      (match vm.main
       case Cons(g, Cons(txid, Cons(i, r))) =>
         if AssetOperand(g, txid).None? || Index(i).None? then Halted
         else PushAmount(vm.(main := r), InputAmount(env, Index(i).value, AssetOperand(g, txid).value))
       case _ => Halted)
    case InspectOutAssetLookup =>
      (match vm.main
       case Cons(g, Cons(txid, Cons(i, r))) =>
         if AssetOperand(g, txid).None? || Index(i).None? then Halted
         else PushAmount(vm.(main := r), OutputAmount(env, Index(i).value, AssetOperand(g, txid).value))
       case _ => Halted)
    case InspectInAssetCount =>
      (match vm.main
       case Cons(i, r) =>
         if Index(i).Some? then vm.(main := Cons(Encode(InputCount(env.groups, Index(i).value)), r)) else Halted
       case _ => Halted)
    case InspectOutAssetCount =>
      (match vm.main
       case Cons(i, r) =>
         if Index(i).Some? then vm.(main := Cons(Encode(OutputCount(env.groups, Index(i).value)), r)) else Halted
       case _ => Halted)
    case _ => Halted
  }

  /** Values, output programs, and what an input or a group refers to. */
  function ContextStep(op: Op, env: Env, vm: Vm): Vm
    requires vm.Vm?
  {
    match vm.main
    case Cons(i, r) =>
      if Index(i).None? then Halted
      else
        var index, below := Index(i).value, vm.(main := r);
        (match op
         case InspectOutputScriptPubKey =>
           if index in env.outputPrograms then below.(main := Cons(Encode(1), Cons(env.outputPrograms[index], r))) else Halted
         case InspectInputValue =>
           if index in env.inputValues then below.(main := Cons(Encode(env.inputValues[index]), r)) else Halted
         case InspectOutputValue =>
           if index in env.outputValues then below.(main := Cons(Encode(env.outputValues[index]), r)) else Halted
         case InspectInputOutpoint =>
           if index in env.outpoints
           then below.(main := Cons(Encode(env.outpoints[index].1), Cons(env.outpoints[index].0, r))) else Halted
         case InspectAssetGroupAssetId =>
           if index < |env.groups|
           then below.(main := Cons(Encode(env.groups[index].asset.group), Cons(env.groups[index].asset.txid, r))) else Halted
         case _ => Halted)
    case _ => Halted
  }

  function Step(op: Op, env: Env, vm: Vm): Vm {
    if vm.Halted? then Halted
    else if op.Else? || op.EndIf? then BranchStep(op, vm)
    else if !Executing(vm.cond) then
      if op.If? then vm.(cond := Cons(Skipped, vm.cond)) else vm
    else
      match op
      case PushInt(n) => vm.(main := Cons(Encode(n), vm.main))
      case PushBytes(b) => vm.(main := Cons(b, vm.main))
      case Dup | Drop | TwoDrop | TwoDup | Swap | Over | Rot | Nip | Roll | ToAlt | FromAlt => StackStep(op, vm)
      case If | Verify | Equal | EqualVerify => CheckStep(op, vm)
      case Size | Cat | Sha256 | ReverseBytes | BinToNum | NumToBin | Not => BytesStep(op, env, vm)
      case InspectPacket | InspectInputPacket | InspectInputScriptPubKey | TweakVerify => PacketStep(op, env, vm)
      case FindAssetGroup | InspectInAssetLookup | InspectOutAssetLookup
         | InspectInAssetCount | InspectOutAssetCount => AssetStep(op, env, vm)
      case InspectOutputScriptPubKey | InspectInputValue | InspectOutputValue
         | InspectInputOutpoint | InspectAssetGroupAssetId => ContextStep(op, env, vm)
      case _ => Binary(op, vm)
  }

  // ----- opcode lists -----

  /** Execute a whole opcode list. */
  function Exec(code: Code, env: Env, vm: Vm): Vm {
    match code
    case Nil => vm
    case Cons(op, rest) => Exec(rest, env, Step(op, env, vm))
  }

  /** `Exec` with its first `n` steps counted out, so that a literal `n` unfolds it. */
  function Unfold(n: nat, code: Code, env: Env, vm: Vm): Vm
    decreases n
  {
    if n == 0 || code.Nil? then Exec(code, env, vm)
    else Unfold(n - 1, code.rest, env, Step(code.top, env, vm))
  }

  lemma {:induction false} Unfolding(n: nat, code: Code, env: Env, vm: Vm)
    ensures Unfold(n, code, env, vm) == Exec(code, env, vm)
  {
    if n > 0 && code.Cons? { Unfolding(n - 1, code.rest, env, Step(code.top, env, vm)); }
  }

  /** Nothing runs after a failed opcode. */
  lemma {:induction false} ExecHalted(code: Code, env: Env)
    ensures Exec(code, env, Halted) == Halted
  {
    if code.Cons? { ExecHalted(code.rest, env); }
  }

  function Ops2(a: Op, b: Op, next: Code): Code { Cons(a, Cons(b, next)) }
  function Ops3(a: Op, b: Op, c: Op, next: Code): Code { Cons(a, Cons(b, Cons(c, next))) }
  function Ops4(a: Op, b: Op, c: Op, d: Op, next: Code): Code { Cons(a, Cons(b, Cons(c, Cons(d, next)))) }
  function Ops5(a: Op, b: Op, c: Op, d: Op, e: Op, next: Code): Code { Cons(a, Ops4(b, c, d, e, next)) }
  function Ops6(a: Op, b: Op, c: Op, d: Op, e: Op, f: Op, next: Code): Code { Ops2(a, b, Ops4(c, d, e, f, next)) }
}
