/**
 The whole programs of the recursive paths: each asset program of the modules before, behind the checks that
 recreate its lock and value, that seed a newcomer's luck, and that carry packets over byte for byte.
*/
module CovenantPaths {
  import opened Common
  import opened ScriptNumber
  import opened ScriptMachine
  import opened PlayerRules
  import opened CovenantFragments
  import opened PlayerCovenant
  import opened CraftCovenant
  import opened ChopCovenant
  import opened StateCovenants

  const TREE_STATE_PACKET_TYPE := 2
  const PLAYER_ROLL_DOMAIN: Bytes := Ascii("woodland.sh/player-roll/v2")

  // ----- packets carried over -----

  lemma SameBytesRuns(a: Bytes, b: Bytes, next: Code, env: Env, vm: Vm)
    requires Live(vm)
    ensures Exec(Cons(EqualVerify, next), env, Push(Push(vm, a), b)) == Exec(next, env, if a == b then vm else Halted)
  {
    hide Exec, Encode;
    Unfolding(1, Cons(EqualVerify, next), env, Push(Push(vm, a), b));
  }

  /** `push_equal_state_packet_at`. */
  function SamePacketCode(packetType: nat, input: nat, next: Code): Code {
    InspectPacketCode(packetType, OfInput(input), InspectPacketCode(packetType, OfOutput, Cons(EqualVerify, next)))
  }

  predicate SamePacket(env: Env, packetType: nat, input: nat) {
    && PacketAt(env, packetType, OfInput(input)).Some?
    && PacketAt(env, packetType, OfOutput) == PacketAt(env, packetType, OfInput(input))
  }

  /** The program runs on exactly when the input's packet is there and the output repeats it byte for byte. */
  lemma SamePacketRuns(packetType: nat, input: nat, next: Code, env: Env, vm: Vm)
    requires Live(vm)
    ensures Exec(SamePacketCode(packetType, input, next), env, vm)
         == Exec(next, env, if SamePacket(env, packetType, input) then vm else Halted)
  {
    hide Exec, InspectPacketCode, PacketAt;
    var compare := Cons(EqualVerify, next);
    var after := InspectPacketCode(packetType, OfOutput, compare);
    InspectPacketRuns(packetType, OfInput(input), after, env, vm);
    ExecHalted(after, env);
    ExecHalted(compare, env);
    ExecHalted(next, env);
    match PacketAt(env, packetType, OfInput(input)) {
      case None =>
      case Some(p) =>
        InspectPacketRuns(packetType, OfOutput, compare, env, Push(vm, p));
        match PacketAt(env, packetType, OfOutput) {
          case None =>
          case Some(q) => SameBytesRuns(p, q, next, env, vm);
        }
    }
  }

  /** Packets equal byte for byte decode to one state, and a decoded state has only these bytes. */
  lemma SameStateSamePackets(env: Env, input: nat)
    requires StateAt(env, OfInput(input)).Some?
    ensures StateAt(env, OfOutput) == StateAt(env, OfInput(input)) <==>
              && SamePacket(env, PLAYER_ROLL_PACKET_TYPE, input) && SamePacket(env, PLAYER_LUCK_CREDIT_PACKET_TYPE, input)
              && SamePacket(env, PLAYER_AXE_PACKET_TYPE, input)
  {
    hide DecodeAxe, DecodeCredit, PacketAt;
    SameLuckSamePackets(env, input);
    match (PacketAt(env, PLAYER_AXE_PACKET_TYPE, OfInput(input)), PacketAt(env, PLAYER_AXE_PACKET_TYPE, OfOutput)) {
      case (Some(p), Some(q)) => AxePacket(p, DecodeAxe(p).value); AxePacket(q, DecodeAxe(p).value);
      case _ =>
    }
  }

  /** The same for the two luck packets alone. */
  lemma SameLuckSamePackets(env: Env, input: nat)
    requires RollAt(env, OfInput(input)).Some? && CreditAt(env, OfInput(input)).Some?
    ensures RollAt(env, OfOutput) == RollAt(env, OfInput(input)) && CreditAt(env, OfOutput) == CreditAt(env, OfInput(input)) <==>
              SamePacket(env, PLAYER_ROLL_PACKET_TYPE, input) && SamePacket(env, PLAYER_LUCK_CREDIT_PACKET_TYPE, input)
  {
    hide DecodeCredit, PacketAt;
    match (PacketAt(env, PLAYER_LUCK_CREDIT_PACKET_TYPE, OfInput(input)), PacketAt(env, PLAYER_LUCK_CREDIT_PACKET_TYPE, OfOutput)) {
      case (Some(p), Some(q)) => CreditPacket(p, DecodeCredit(p).value); CreditPacket(q, DecodeCredit(p).value);
      case _ =>
    }
  }

  // ----- lock and value -----

  function ProgramAt(env: Env, side: Side): Option<Bytes> {
    var programs := if side.Input? then env.inputPrograms else env.outputPrograms;
    if side.index in programs then Some(programs[side.index]) else None
  }

  function ProgramCode(side: Side, next: Code): Code {
    Ops2(PushInt(side.index), if side.Input? then InspectInputScriptPubKey else InspectOutputScriptPubKey, RequireFound(next))
  }

  lemma ProgramCodeRuns(side: Side, next: Code, env: Env, vm: Vm)
    requires Live(vm)
    ensures Exec(ProgramCode(side, next), env, vm)
         == Exec(next, env, match ProgramAt(env, side) case Some(p) => Push(vm, p) case None => Halted)
  {
    hide Exec, Encode, Decode, Minimal, StackStep, CheckStep, BytesStep, AssetStep, Binary;
    Encodings();
    Unfolding(2, ProgramCode(side, next), env, vm);
    ExecHalted(RequireFound(next), env);
    ExecHalted(next, env);
    match ProgramAt(env, side) {
      case None =>
      case Some(p) => RequireFoundRuns(Some(p), next, env, vm);
    }
  }

  /** `push_equal_input_output_scripts`. */
  function SameScriptCode(input: nat, output: nat, next: Code): Code {
    ProgramCode(Output(output), ProgramCode(Input(input), Cons(EqualVerify, next)))
  }

  predicate SameScript(env: Env, input: nat, output: nat) {
    ProgramAt(env, Input(input)).Some? && ProgramAt(env, Output(output)) == ProgramAt(env, Input(input))
  }

  lemma SameScriptRuns(input: nat, output: nat, next: Code, env: Env, vm: Vm)
    requires Live(vm)
    ensures Exec(SameScriptCode(input, output, next), env, vm)
         == Exec(next, env, if SameScript(env, input, output) then vm else Halted)
  {
    hide Exec, ProgramCode, ProgramAt;
    var compare := Cons(EqualVerify, next);
    ProgramCodeRuns(Output(output), ProgramCode(Input(input), compare), env, vm);
    ExecHalted(ProgramCode(Input(input), compare), env);
    ExecHalted(compare, env);
    ExecHalted(next, env);
    match ProgramAt(env, Output(output)) {
      case None =>
      case Some(q) =>
        ProgramCodeRuns(Input(input), compare, env, Push(vm, q));
        match ProgramAt(env, Input(input)) {
          case None =>
          case Some(p) => SameBytesRuns(q, p, next, env, vm);
        }
    }
  }

  function ValueAt(env: Env, side: Side): Option<nat> {
    var values := if side.Input? then env.inputValues else env.outputValues;
    if side.index in values then Some(values[side.index]) else None
  }

  function ValueCode(side: Side, next: Code): Code {
    Ops2(PushInt(side.index), if side.Input? then InspectInputValue else InspectOutputValue, next)
  }

  lemma ValueRuns(side: Side, next: Code, env: Env, vm: Vm)
    requires Live(vm)
    ensures Exec(ValueCode(side, next), env, vm) == Exec(next, env, PushOrHalt(vm, ValueAt(env, side)))
  {
    hide Exec, Encode, Decode, Minimal, StackStep, CheckStep, BytesStep, AssetStep, PacketStep, Binary;
    Encodings();
    Unfolding(2, ValueCode(side, next), env, vm);
  }

  function WorthCode(side: Side, sats: nat, next: Code): Code { ValueCode(side, RequireEqual(sats, next)) }

  lemma WorthRuns(side: Side, sats: nat, next: Code, env: Env, vm: Vm)
    requires Live(vm)
    ensures Exec(WorthCode(side, sats, next), env, vm)
         == Exec(next, env, if ValueAt(env, side) == Some(sats) then vm else Halted)
  {
    hide Exec, ValueCode, RequireEqual, ValueAt;
    ValueRuns(side, RequireEqual(sats, next), env, vm);
    ExecHalted(RequireEqual(sats, next), env);
    ExecHalted(next, env);
    match ValueAt(env, side) {
      case None =>
      case Some(v) => RequireEqualRuns(sats, v, next, env, vm);
    }
  }

  function SameValueCode(one: Side, other: Side, next: Code): Code { ValueCode(one, ValueCode(other, Cons(EqualVerify, next))) }

  predicate SameValue(env: Env, one: Side, other: Side) { ValueAt(env, one).Some? && ValueAt(env, other) == ValueAt(env, one) }

  lemma SameValueRuns(one: Side, other: Side, next: Code, env: Env, vm: Vm)
    requires Live(vm)
    ensures Exec(SameValueCode(one, other, next), env, vm)
         == Exec(next, env, if SameValue(env, one, other) then vm else Halted)
  {
    hide Exec, Encode, ValueCode, ValueAt;
    var compare := Cons(EqualVerify, next);
    ValueRuns(one, ValueCode(other, compare), env, vm);
    ExecHalted(ValueCode(other, compare), env);
    ExecHalted(compare, env);
    ExecHalted(next, env);
    match ValueAt(env, one) {
      case None =>
      case Some(v) =>
        ValueRuns(other, compare, env, PushNumber(vm, v));
        match ValueAt(env, other) {
          case None =>
          case Some(u) => EqualVerifyRuns(v, u, next, env, vm);
        }
    }
  }

  /** A state is recreated under its own lock with the fixed value on both sides. */
  function RelockCode(input: nat, output: nat, sats: nat, next: Code): Code {
    SameScriptCode(input, output, WorthCode(Output(output), sats, WorthCode(Input(input), sats, next)))
  }

  predicate Relocked(env: Env, input: nat, output: nat, sats: nat) {
    SameScript(env, input, output) && ValueAt(env, Output(output)) == Some(sats) && ValueAt(env, Input(input)) == Some(sats)
  }

  lemma RelockRuns(input: nat, output: nat, sats: nat, next: Code, env: Env, vm: Vm)
    requires Live(vm)
    ensures Exec(RelockCode(input, output, sats, next), env, vm)
         == Exec(next, env, if Relocked(env, input, output, sats) then vm else Halted)
  {
    hide Exec, SameScriptCode, WorthCode, SameScript, ValueAt;
    var before := WorthCode(Input(input), sats, next);
    var after := WorthCode(Output(output), sats, before);
    SameScriptRuns(input, output, after, env, vm);
    WorthRuns(Output(output), sats, before, env, vm);
    WorthRuns(Input(input), sats, next, env, vm);
    ExecHalted(after, env);
    ExecHalted(before, env);
    ExecHalted(next, env);
  }

  // ----- a newcomer's seed -----

  /** The first roll of a player, bound to the program that locks its state. */
  function InitialRoll(sha: Sha, program: Bytes): Digest { sha(PLAYER_ROLL_DOMAIN + program) }

  /** `push_canonical_initial_player_luck`. */
  function SeedCode(input: nat, xp: AssetId, next: Code): Code {
    ProgressionCode(input, xp, OriginCode(input, Cons(If, FirstSpendCode(input, Cons(EndIf, next)))))
  }

  /** Whether the player's own asset was issued by the very transaction this input spends from. */
  function OriginCode(input: nat, next: Code): Code {
    Ops4(PushInt(0), InspectAssetGroupAssetId, PushInt(0), EqualVerify, Ops4(PushInt(input), InspectInputOutpoint, Drop, Equal, next))
  }

  predicate HasOrigin(env: Env, input: nat) { |env.groups| > 0 && env.groups[0].asset.group == 0 && input in env.outpoints }

  predicate FirstSpend(env: Env, input: nat) { HasOrigin(env, input) && env.groups[0].asset.txid == env.outpoints[input].0 }

  lemma OriginRuns(input: nat, next: Code, env: Env, vm: Vm)
    requires Live(vm)
    ensures Exec(OriginCode(input, next), env, vm)
         == Exec(next, env, if HasOrigin(env, input) then PushNumber(vm, Bit(FirstSpend(env, input))) else Halted)
  {
    hide Exec, Encode, Decode, Minimal, BytesStep, AssetStep, PacketStep, Binary, StackStep, CheckStep;
    Encodings();
    var outpoint := Ops4(PushInt(input), InspectInputOutpoint, Drop, Equal, next);
    var check := Ops2(PushInt(0), EqualVerify, outpoint);
    Unfolding(2, OriginCode(input, next), env, vm);
    ExecHalted(check, env);
    ExecHalted(outpoint, env);
    ExecHalted(next, env);
    if |env.groups| > 0 {
      var asset := env.groups[0].asset;
      var issued := Push(vm, asset.txid);
      PushIntRuns(0, Cons(EqualVerify, outpoint), env, PushNumber(issued, asset.group));
      EqualVerifyRuns(asset.group, 0, outpoint, env, issued);
      SpentFromRuns(input, asset.txid, next, env, vm);
    }
  }

  lemma SpentFromRuns(input: nat, issued: Digest, next: Code, env: Env, vm: Vm)
    requires Live(vm)
    ensures Exec(Ops4(PushInt(input), InspectInputOutpoint, Drop, Equal, next), env, Push(vm, issued))
         == Exec(next, env, if input in env.outpoints then PushNumber(vm, Bit(issued == env.outpoints[input].0)) else Halted)
  {
    hide Exec, Encode, Decode, Minimal, BytesStep, AssetStep, PacketStep, Binary;
    Encodings();
    var compare := Ops2(Drop, Equal, next);
    Unfolding(2, Ops4(PushInt(input), InspectInputOutpoint, Drop, Equal, next), env, Push(vm, issued));
    ExecHalted(compare, env);
    ExecHalted(next, env);
    if input in env.outpoints {
      var both := Push(Push(vm, issued), env.outpoints[input].0);
      StackRuns(Drop, Cons(Equal, next), env, PushNumber(both, env.outpoints[input].1));
      Unfolding(1, Cons(Equal, next), env, both);
    }
  }

  function FirstSpendCode(input: nat, next: Code): Code {
    Cons(PushBytes(PLAYER_ROLL_DOMAIN), ProgramCode(Input(input), Ops2(Cat, Sha256,
      InspectPacketCode(PLAYER_ROLL_PACKET_TYPE, OfInput(input), Cons(EqualVerify,
        CreditCode(OfInput(input), RequireEqual(INITIAL_LUCK_CREDIT,
          AxeCode(OfInput(input), RequireEqual(0, next)))))))))
  }

  /** What a player's first spend must show: the roll seeded by its own lock, the initial credit, no axe. */
  predicate Newborn(env: Env, input: nat) {
    && ProgramAt(env, Input(input)).Some?
    && PacketAt(env, PLAYER_ROLL_PACKET_TYPE, OfInput(input)) == Some(InitialRoll(env.sha, ProgramAt(env, Input(input)).value))
    && CreditAt(env, OfInput(input)) == Some(INITIAL_LUCK_CREDIT)
    && AxeAt(env, OfInput(input)) == Some(NoAxe)
  }

  lemma SeededRollRuns(input: nat, program: Bytes, next: Code, env: Env, vm: Vm)
    requires Live(vm)
    ensures Exec(Ops2(Cat, Sha256, InspectPacketCode(PLAYER_ROLL_PACKET_TYPE, OfInput(input), Cons(EqualVerify, next))), env,
                 Push(Push(vm, PLAYER_ROLL_DOMAIN), program))
         == Exec(next, env, if PacketAt(env, PLAYER_ROLL_PACKET_TYPE, OfInput(input)) == Some(InitialRoll(env.sha, program))
                            then vm else Halted)
  {
    hide Exec, Step, Encode, InspectPacketCode, PacketAt;
    var compare := Cons(EqualVerify, next);
    var inspect := InspectPacketCode(PLAYER_ROLL_PACKET_TYPE, OfInput(input), compare);
    var seed := InitialRoll(env.sha, program);
    BytesRuns(Cat, Cons(Sha256, inspect), env, Push(Push(vm, PLAYER_ROLL_DOMAIN), program));
    BytesRuns(Sha256, inspect, env, Push(vm, PLAYER_ROLL_DOMAIN + program));
    InspectPacketRuns(PLAYER_ROLL_PACKET_TYPE, OfInput(input), compare, env, Push(vm, seed));
    ExecHalted(compare, env);
    ExecHalted(next, env);
    match PacketAt(env, PLAYER_ROLL_PACKET_TYPE, OfInput(input)) {
      case None =>
      case Some(p) => SameBytesRuns(seed, p, next, env, vm);
    }
  }

  lemma InitialCreditRuns(input: nat, next: Code, env: Env, vm: Vm)
    requires Live(vm)
    ensures Exec(CreditCode(OfInput(input), RequireEqual(INITIAL_LUCK_CREDIT, AxeCode(OfInput(input), RequireEqual(0, next)))), env, vm)
         == Exec(next, env, if CreditAt(env, OfInput(input)) == Some(INITIAL_LUCK_CREDIT) && AxeAt(env, OfInput(input)) == Some(NoAxe)
                            then vm else Halted)
  {
    hide Exec, CreditCode, AxeCode, RequireEqual, CreditAt, AxeAt;
    var bare := RequireEqual(0, next);
    var axe := AxeCode(OfInput(input), bare);
    var initial := RequireEqual(INITIAL_LUCK_CREDIT, axe);
    CreditRuns(OfInput(input), initial, env, vm);
    AxeRuns(OfInput(input), bare, env, vm);
    ExecHalted(initial, env);
    ExecHalted(axe, env);
    ExecHalted(bare, env);
    ExecHalted(next, env);
    match CreditAt(env, OfInput(input)) {
      case None =>
      case Some(c) => RequireEqualRuns(INITIAL_LUCK_CREDIT, c, axe, env, vm);
    }
    match AxeAt(env, OfInput(input)) {
      case None =>
      case Some(a) => RequireEqualRuns(0, a.Tier(), next, env, vm);
    }
  }

  lemma FirstSpendRuns(input: nat, next: Code, env: Env, vm: Vm)
    requires Live(vm)
    ensures Exec(FirstSpendCode(input, next), env, vm) == Exec(next, env, if Newborn(env, input) then vm else Halted)
  {
    hide Exec, Encode, ProgramCode, InspectPacketCode, CreditCode, AxeCode, RequireEqual, ProgramAt, PacketAt, CreditAt, AxeAt;
    var credit := CreditCode(OfInput(input), RequireEqual(INITIAL_LUCK_CREDIT, AxeCode(OfInput(input), RequireEqual(0, next))));
    var roll := Ops2(Cat, Sha256, InspectPacketCode(PLAYER_ROLL_PACKET_TYPE, OfInput(input), Cons(EqualVerify, credit)));
    PushBytesRuns(PLAYER_ROLL_DOMAIN, ProgramCode(Input(input), roll), env, vm);
    ProgramCodeRuns(Input(input), roll, env, Push(vm, PLAYER_ROLL_DOMAIN));
    ExecHalted(roll, env);
    ExecHalted(credit, env);
    ExecHalted(next, env);
    InitialCreditRuns(input, next, env, vm);
    match ProgramAt(env, Input(input)) {
      case None =>
      case Some(p) => SeededRollRuns(input, p, credit, env, vm);
    }
  }

  lemma NumberPacketSkips(packetType: nat, input: nat, width: nat, limit: nat, next: Code, env: Env, vm: Vm)
    requires Dead(vm)
    ensures Exec(NumberPacketCode(packetType, OfInput(input), width, limit, next), env, vm) == Exec(next, env, vm)
  {
    hide Exec;
    var bounded := RequireBelow(limit, next);
    var signed := RequireAbove(-1, bounded);
    var canonical := CanonicalCode(width, signed);
    SkippedRun(InspectPacketCode(packetType, OfInput(input), WidthCode(width, canonical)), 5, env, vm);
    SkippedRun(WidthCode(width, canonical), 3, env, vm);
    SkippedRun(canonical, 7, env, vm);
    SkippedRun(signed, 4, env, vm);
    SkippedRun(bounded, 4, env, vm);
  }

  lemma FirstSpendSkips(input: nat, next: Code, env: Env, vm: Vm)
    requires Dead(vm)
    ensures Exec(FirstSpendCode(input, next), env, vm) == Exec(next, env, vm)
  {
    hide Exec, NumberPacketCode;
    var bare := RequireEqual(0, next);
    var axe := AxeCode(OfInput(input), bare);
    var initial := RequireEqual(INITIAL_LUCK_CREDIT, axe);
    var credit := CreditCode(OfInput(input), initial);
    var compare := Cons(EqualVerify, credit);
    var inspect := InspectPacketCode(PLAYER_ROLL_PACKET_TYPE, OfInput(input), compare);
    SkippedRun(FirstSpendCode(input, next), 7, env, vm);
    SkippedRun(inspect, 6, env, vm);
    NumberPacketSkips(PLAYER_LUCK_CREDIT_PACKET_TYPE, input, 9, MAX_LUCK_CREDIT + 1, initial, env, vm);
    SkippedRun(initial, 2, env, vm);
    NumberPacketSkips(PLAYER_AXE_PACKET_TYPE, input, 1, 4, bare, env, vm);
    SkippedRun(bare, 2, env, vm);
  }

  /** The equipped axe is backed by experience, and a state on its first spend is newborn. */
  predicate Seeded(env: Env, input: nat, xp: AssetId) {
    && Progressed(env, input, xp) && HasOrigin(env, input)
    && (FirstSpend(env, input) ==> Newborn(env, input))
  }

  predicate Progressed(env: Env, input: nat, xp: AssetId) {
    match AxeAt(env, OfInput(input))
    case None => false
    case Some(axe) => Held(env, Input(input), xp) >= RequiredXp(axe)
  }

  /** The seed program passes exactly progressed states that are newborn on their first spend. */
  lemma SeedRuns(input: nat, xp: AssetId, next: Code, env: Env, vm: Vm)
    requires Live(vm)
    ensures Exec(SeedCode(input, xp, next), env, vm)
         == Exec(next, env, if Seeded(env, input, xp) then vm else Halted)
  {
    hide Exec, Step, Encode, ProgressionCode, OriginCode, FirstSpendCode, AxeAt, Held, HasOrigin, FirstSpend, Newborn;
    var end := Cons(EndIf, next);
    var first := FirstSpendCode(input, end);
    var origin := OriginCode(input, Cons(If, first));
    ProgressionRuns(input, xp, origin, env, vm);
    OriginRuns(input, Cons(If, first), env, vm);
    ExecHalted(origin, env);
    ExecHalted(Cons(If, first), env);
    ExecHalted(end, env);
    ExecHalted(next, env);
    if HasOrigin(env, input) {
      IfRuns(FirstSpend(env, input), first, env, vm);
      if FirstSpend(env, input) {
        FirstSpendRuns(input, end, env, Enter(vm, Taken));
        BranchRuns(EndIf, next, env, Enter(vm, Taken));
      } else {
        FirstSpendSkips(input, end, env, Enter(vm, NotTaken));
        BranchRuns(EndIf, next, env, Enter(vm, NotTaken));
      }
    }
  }

  // ----- player paths -----

  function SamePacketsCode(types: seq<nat>, input: nat, next: Code): Code {
    if types == [] then next else SamePacketCode(types[0], input, SamePacketsCode(types[1..], input, next))
  }

  predicate SamePackets(env: Env, types: seq<nat>, input: nat) { forall t <- types :: SamePacket(env, t, input) }

  lemma {:induction false} SamePacketsRun(types: seq<nat>, input: nat, next: Code, env: Env, vm: Vm)
    requires Live(vm)
    ensures Exec(SamePacketsCode(types, input, next), env, vm)
         == Exec(next, env, if SamePackets(env, types, input) then vm else Halted)
  {
    hide Exec, SamePacketCode, SamePacket;
    if types != [] {
      var rest := SamePacketsCode(types[1..], input, next);
      SamePacketRuns(types[0], input, rest, env, vm);
      SamePacketsRun(types[1..], input, next, env, vm);
      ExecHalted(rest, env);
      ExecHalted(next, env);
      assert types == [types[0]] + types[1..];
    }
  }

  const LUCK_PACKETS: seq<nat> := [PLAYER_ROLL_PACKET_TYPE, PLAYER_LUCK_CREDIT_PACKET_TYPE]
  const PLAYER_PACKETS: seq<nat> := [PLAYER_ROLL_PACKET_TYPE, PLAYER_LUCK_CREDIT_PACKET_TYPE, PLAYER_AXE_PACKET_TYPE]

  /** What every recursive player path begins with, once its shape is checked. */
  function PlayerStartCode(input: nat, dust: nat, xp: AssetId, packets: seq<nat>, next: Code): Code {
    RelockCode(input, 0, dust, SeedCode(input, xp, SamePacketsCode(packets, input, next)))
  }

  predicate PlayerStarts(env: Env, input: nat, dust: nat, xp: AssetId, packets: seq<nat>) {
    Relocked(env, input, 0, dust) && Seeded(env, input, xp) && SamePackets(env, packets, input)
  }

  lemma PlayerStartRuns(input: nat, dust: nat, xp: AssetId, packets: seq<nat>, next: Code, env: Env, vm: Vm)
    requires Live(vm)
    ensures Exec(PlayerStartCode(input, dust, xp, packets, next), env, vm)
         == Exec(next, env, if PlayerStarts(env, input, dust, xp, packets) then vm else Halted)
  {
    hide Exec, RelockCode, SeedCode, SamePacketsCode, Relocked, Seeded, SamePackets;
    var carried := SamePacketsCode(packets, input, next);
    var seeded := SeedCode(input, xp, carried);
    RelockRuns(input, 0, dust, seeded, env, vm);
    SeedRuns(input, xp, carried, env, vm);
    SamePacketsRun(packets, input, next, env, vm);
    ExecHalted(seeded, env);
    ExecHalted(carried, env);
    ExecHalted(next, env);
  }

  /** `player_renewal_covenant_script`: lock, value, packets and assets all stay. */
  function RenewalPathCode(ids: InventoryIds, dust: nat, next: Code): Code {
    PlayerStartCode(1, dust, ids.xp, PLAYER_PACKETS, PlayerRenewalCode(ids, next))
  }

  predicate RenewalPathAccepted(env: Env, ids: InventoryIds, dust: nat) {
    PlayerStarts(env, 1, dust, ids.xp, PLAYER_PACKETS) && AllUnchanged(env, 1, 0, [ids.log, ids.xp, ids.stone, ids.ironOre])
  }

  lemma RenewalPathRuns(ids: InventoryIds, dust: nat, next: Code, env: Env, vm: Vm)
    requires Live(vm)
    ensures Exec(RenewalPathCode(ids, dust, next), env, vm)
         == Exec(next, env, if RenewalPathAccepted(env, ids, dust) then vm else Halted)
  {
    hide Exec, PlayerStartCode, AllUnchangedCode, PlayerStarts, AllUnchanged;
    var assets := [ids.log, ids.xp, ids.stone, ids.ironOre];
    PlayerStartRuns(1, dust, ids.xp, PLAYER_PACKETS, PlayerRenewalCode(ids, next), env, vm);
    AllUnchangedRuns(1, 0, assets, next, env, vm);
    ExecHalted(PlayerRenewalCode(ids, next), env);
    ExecHalted(next, env);
  }

  /** `player_withdraw_covenant_script`: the destination is worth exactly the funding input. */
  function WithdrawPathCode(ids: InventoryIds, dust: nat, next: Code): Code {
    RelockCode(0, 0, dust, SameValueCode(Output(1), Input(1),
      SeedCode(0, ids.xp, SamePacketsCode(PLAYER_PACKETS, 0, WithdrawCode(ids, next)))))
  }

  predicate WithdrawPathAccepted(env: Env, ids: InventoryIds, dust: nat) {
    && PlayerStarts(env, 0, dust, ids.xp, PLAYER_PACKETS) && SameValue(env, Output(1), Input(1))
    && WithdrawAccepted(env, ids)
  }

  lemma WithdrawPathRuns(ids: InventoryIds, dust: nat, next: Code, env: Env, vm: Vm)
    requires Live(vm)
    ensures Exec(WithdrawPathCode(ids, dust, next), env, vm)
         == Exec(next, env, if WithdrawPathAccepted(env, ids, dust) then vm else Halted)
  {
    hide Exec, RelockCode, SameValueCode, SeedCode, SamePacketsCode, WithdrawCode,
         Relocked, SameValue, Seeded, SamePackets, WithdrawAccepted;
    var leaving := WithdrawCode(ids, next);
    var carried := SamePacketsCode(PLAYER_PACKETS, 0, leaving);
    var seeded := SeedCode(0, ids.xp, carried);
    var funded := SameValueCode(Output(1), Input(1), seeded);
    RelockRuns(0, 0, dust, funded, env, vm);
    SameValueRuns(Output(1), Input(1), seeded, env, vm);
    SeedRuns(0, ids.xp, carried, env, vm);
    SamePacketsRun(PLAYER_PACKETS, 0, leaving, env, vm);
    WithdrawRuns(ids, next, env, vm);
    ExecHalted(funded, env);
    ExecHalted(seeded, env);
    ExecHalted(carried, env);
    ExecHalted(leaving, env);
    ExecHalted(next, env);
  }

  /** `player_craft_covenant_script`: the luck packets stay, the axe moves by the recipe. */
  function CraftPathCode(ids: InventoryIds, dust: nat, next: Code): Code {
    PlayerStartCode(0, dust, ids.xp, LUCK_PACKETS,
      CountsCode(Input(0), ids, CountsCode(Output(0), ids, RecipeCode(ids, next))))
  }

  predicate CraftPathAccepted(env: Env, ids: InventoryIds, dust: nat) {
    && PlayerStarts(env, 0, dust, ids.xp, LUCK_PACKETS)
    && OnlyInventory(env, Input(0), ids) && OnlyInventory(env, Output(0), ids) && CraftAccepted(env, ids)
  }

  lemma CraftPathRuns(ids: InventoryIds, dust: nat, next: Code, env: Env, vm: Vm)
    requires Live(vm)
    ensures Exec(CraftPathCode(ids, dust, next), env, vm)
         == Exec(next, env, if CraftPathAccepted(env, ids, dust) then vm else Halted)
  {
    hide Exec, PlayerStartCode, CountsCode, RecipeCode, PlayerStarts, OnlyInventory, CraftAccepted;
    var recipe := RecipeCode(ids, next);
    var after := CountsCode(Output(0), ids, recipe);
    var before := CountsCode(Input(0), ids, after);
    PlayerStartRuns(0, dust, ids.xp, LUCK_PACKETS, before, env, vm);
    CountsRun(Input(0), ids, after, env, vm);
    CountsRun(Output(0), ids, recipe, env, vm);
    RecipeRefinesHost(ids, next, env, vm);
    ExecHalted(before, env);
    ExecHalted(after, env);
    ExecHalted(recipe, env);
    ExecHalted(next, env);
  }

  // ----- tree paths -----

  /** `tree_covenant_script` after its shape: both locks and values, the tree's place, the player's seed, the swing. */
  function ChopPathCode(tree: AssetId, ids: InventoryIds, dust: nat, next: Code): Code {
    SameScriptCode(0, 0, SameScriptCode(1, 1,
      WorthCode(Output(0), dust, WorthCode(Input(0), dust, WorthCode(Output(1), dust, WorthCode(Input(1), dust,
        ChopStartCode(tree, ids, next)))))))
  }

  function ChopStartCode(tree: AssetId, ids: InventoryIds, next: Code): Code {
    SamePacketCode(TREE_STATE_PACKET_TYPE, 1, SeedCode(0, ids.xp, ChopCode(tree, ids, next)))
  }

  predicate ChopPathAccepted(env: Env, tree: AssetId, ids: InventoryIds, dust: nat) {
    && Relocked(env, 0, 0, dust) && Relocked(env, 1, 1, dust)
    && SamePacket(env, TREE_STATE_PACKET_TYPE, 1) && Seeded(env, 0, ids.xp) && ChopAccepted(env, tree, ids)
  }

  lemma ChopStartRuns(tree: AssetId, ids: InventoryIds, next: Code, env: Env, vm: Vm)
    requires Live(vm)
    ensures Exec(ChopStartCode(tree, ids, next), env, vm)
         == Exec(next, env, if SamePacket(env, TREE_STATE_PACKET_TYPE, 1) && Seeded(env, 0, ids.xp) && ChopAccepted(env, tree, ids)
                            then vm else Halted)
  {
    hide Exec, SamePacketCode, SeedCode, ChopCode, SamePacket, Seeded, ChopAccepted;
    var chop := ChopCode(tree, ids, next);
    var seeded := SeedCode(0, ids.xp, chop);
    SamePacketRuns(TREE_STATE_PACKET_TYPE, 1, seeded, env, vm);
    SeedRuns(0, ids.xp, chop, env, vm);
    ChopRefinesHost(tree, ids, next, env, vm);
    ExecHalted(seeded, env);
    ExecHalted(chop, env);
    ExecHalted(next, env);
  }

  lemma ChopPathRuns(tree: AssetId, ids: InventoryIds, dust: nat, next: Code, env: Env, vm: Vm)
    requires Live(vm)
    ensures Exec(ChopPathCode(tree, ids, dust, next), env, vm)
         == Exec(next, env, if ChopPathAccepted(env, tree, ids, dust) then vm else Halted)
  {
    hide Exec, SameScriptCode, WorthCode, ChopStartCode, SameScript, ValueAt, SamePacket, Seeded, ChopAccepted;
    var start := ChopStartCode(tree, ids, next);
    var fourth := WorthCode(Input(1), dust, start);
    var third := WorthCode(Output(1), dust, fourth);
    var second := WorthCode(Input(0), dust, third);
    var first := WorthCode(Output(0), dust, second);
    SameScriptRuns(0, 0, SameScriptCode(1, 1, first), env, vm);
    SameScriptRuns(1, 1, first, env, vm);
    WorthRuns(Output(0), dust, second, env, vm);
    WorthRuns(Input(0), dust, third, env, vm);
    WorthRuns(Output(1), dust, fourth, env, vm);
    WorthRuns(Input(1), dust, start, env, vm);
    ChopStartRuns(tree, ids, next, env, vm);
    ExecHalted(SameScriptCode(1, 1, first), env);
    ExecHalted(first, env);
    ExecHalted(second, env);
    ExecHalted(third, env);
    ExecHalted(fourth, env);
    ExecHalted(start, env);
    ExecHalted(next, env);
  }

  // ----- the host's whole check of a chop -----

  const TREE_STATE_HEADER: Bytes := [0x54, 0x52, 1]

  /** Immutable identity and position of a tree. */
  datatype Place = Place(id: nat, x: nat, y: nat)

  /** `TreeState::decode`. */
  function DecodePlace(p: Bytes): Option<Place> {
    if |p| != 11 || p[..3] != TREE_STATE_HEADER then None
    else Some(Place(LittleEndian(p[3..7]), LittleEndian(p[7..9]), LittleEndian(p[9..11])))
  }

  function PlaceAt(env: Env, source: Source): Option<Place> {
    match PacketAt(env, TREE_STATE_PACKET_TYPE, source) case None => None case Some(p) => DecodePlace(p)
  }

  /** A place has one encoding. */
  lemma PlaceHasOneEncoding(p: Bytes, q: Bytes)
    requires DecodePlace(p).Some? && DecodePlace(p) == DecodePlace(q)
    ensures p == q
  {
    LittleEndianInjective(p[3..7], q[3..7]);
    LittleEndianInjective(p[7..9], q[7..9]);
    LittleEndianInjective(p[9..11], q[9..11]);
    assert p == p[..3] + p[3..7] + p[7..9] + p[9..11] && q == q[..3] + q[3..7] + q[7..9] + q[9..11];
  }

  /** Everything the host reads off a chop transaction. */
  datatype WholeChop = WholeChop(
    chop: ChopTransition, placeBefore: Place, placeAfter: Place,
    playerSatsBefore: nat, playerSatsAfter: nat, treeSatsBefore: nat, treeSatsAfter: nat)
  {
    /** `ChopTransition::validate`, and the bound `TreeHealth::new` puts on what it is given. */
    predicate Validate(sha: Sha, dust: nat) {
      && placeAfter == placeBefore
      && chop.healthBefore <= LOGS_PER_TREE && chop.healthAfter <= LOGS_PER_TREE
      && chop.Valid(sha)
      && dust != 0 && playerSatsBefore == dust && playerSatsAfter == dust && treeSatsBefore == dust && treeSatsAfter == dust
    }
  }

  function Sighted(env: Env, tree: AssetId, ids: InventoryIds, success: bool): Option<WholeChop> {
    var chop := Observed(env, tree, ids, success);
    var (before, after) := (PlaceAt(env, OfInput(1)), PlaceAt(env, OfOutput));
    if chop.Some? && before.Some? && after.Some?
       && ValueAt(env, Input(0)).Some? && ValueAt(env, Output(0)).Some?
       && ValueAt(env, Input(1)).Some? && ValueAt(env, Output(1)).Some?
    then Some(WholeChop(chop.value, before.value, after.value,
                        ValueAt(env, Input(0)).value, ValueAt(env, Output(0)).value,
                        ValueAt(env, Input(1)).value, ValueAt(env, Output(1)).value))
    else None
  }

  /** What the host can represent at all: some dust, a well-formed place, and at most ten logs of health. */
  predicate Representable(env: Env, dust: nat) {
    && dust != 0 && PlaceAt(env, OfInput(1)).Some?
    && HealthAt(env, OfInput(1)).Some? && HealthAt(env, OfInput(1)).value <= LOGS_PER_TREE
  }

  /** What the chop covenant demands and the host's check does not look at. */
  predicate BeyondHost(env: Env, ids: InventoryIds) {
    && SameScript(env, 0, 0) && SameScript(env, 1, 1) && Seeded(env, 0, ids.xp)
    && Held(env, Input(1), ids.stone) > 0 && Held(env, Input(1), ids.ironOre) > 0
    && OnlyInventory(env, Input(0), ids) && OnlyInventory(env, Output(0), ids)
  }

  lemma SamePlaceSamePacket(env: Env)
    requires PlaceAt(env, OfInput(1)).Some?
    ensures SamePacket(env, TREE_STATE_PACKET_TYPE, 1) <==> PlaceAt(env, OfOutput) == PlaceAt(env, OfInput(1))
  {
    hide DecodePlace;
    var before, after := PacketAt(env, TREE_STATE_PACKET_TYPE, OfInput(1)), PacketAt(env, TREE_STATE_PACKET_TYPE, OfOutput);
    if PlaceAt(env, OfOutput) == PlaceAt(env, OfInput(1)) { PlaceHasOneEncoding(before.value, after.value); }
  }

  /**
   The whole chop path and the host agree: on every state the host can represent, the path is open exactly to
   the transactions the host's check passes for some outcome of the swing, up to the conditions above.
  */
  lemma ChopPathMatchesHostCheck(env: Env, tree: AssetId, ids: InventoryIds, dust: nat)
    ensures ChopPathAccepted(env, tree, ids, dust) && Representable(env, dust)
       <==> BeyondHost(env, ids)
            && exists success ::
                 && Sighted(env, tree, ids, success).Some?
                 && Sighted(env, tree, ids, success).value.Validate(env.sha, dust)
  {
    hide HealthAt, StateAt, PlaceAt, Seeded, ChopAccepted, SameScript, OnlyInventory, InventoryAt, Held, PacketAt,
         Advance, MaterialDrop, ValueAt;
    CovenantMatchesHostCheck(env, tree, ids);
    if PlaceAt(env, OfInput(1)).Some? { SamePlaceSamePacket(env); }
    if ChopPathAccepted(env, tree, ids, dust) && Representable(env, dust) {
      var success :| Observed(env, tree, ids, success).Some? && Observed(env, tree, ids, success).value.Valid(env.sha);
      assert Sighted(env, tree, ids, success).value.Validate(env.sha, dust);
    }
  }

  /** `tree_renewal_base` before its markers and reserves. */
  function TreeStartCode(next: Code): Code {
    SameScriptCode(1, 0, SameValueCode(Output(0), Input(1), SamePacketCode(TREE_STATE_PACKET_TYPE, 1, next)))
  }

  predicate TreeStarts(env: Env) {
    SameScript(env, 1, 0) && SameValue(env, Output(0), Input(1)) && SamePacket(env, TREE_STATE_PACKET_TYPE, 1)
  }

  lemma TreeStartRuns(next: Code, env: Env, vm: Vm)
    requires Live(vm)
    ensures Exec(TreeStartCode(next), env, vm) == Exec(next, env, if TreeStarts(env) then vm else Halted)
  {
    hide Exec, SameScriptCode, SameValueCode, SamePacketCode, SameScript, SameValue, SamePacket;
    var place := SamePacketCode(TREE_STATE_PACKET_TYPE, 1, next);
    var worth := SameValueCode(Output(0), Input(1), place);
    SameScriptRuns(1, 0, worth, env, vm);
    SameValueRuns(Output(0), Input(1), place, env, vm);
    SamePacketRuns(TREE_STATE_PACKET_TYPE, 1, next, env, vm);
    ExecHalted(worth, env);
    ExecHalted(place, env);
    ExecHalted(next, env);
  }

  /** `tree_regrowth_covenant_script`. */
  function RegrowthPathCode(tree: AssetId, ids: InventoryIds, next: Code): Code { TreeStartCode(RegrowthCode(tree, ids, next)) }

  predicate RegrowthPathAccepted(env: Env, tree: AssetId, ids: InventoryIds) { TreeStarts(env) && RegrowthAccepted(env, tree, ids) }

  lemma RegrowthPathRuns(tree: AssetId, ids: InventoryIds, next: Code, env: Env, vm: Vm)
    requires Live(vm)
    ensures Exec(RegrowthPathCode(tree, ids, next), env, vm)
         == Exec(next, env, if RegrowthPathAccepted(env, tree, ids) then vm else Halted)
  {
    hide Exec, TreeStartCode, RegrowthCode, TreeStarts, RegrowthAccepted;
    TreeStartRuns(RegrowthCode(tree, ids, next), env, vm);
    RegrowthRuns(tree, ids, next, env, vm);
    ExecHalted(RegrowthCode(tree, ids, next), env);
    ExecHalted(next, env);
  }

  /** `tree_maintenance_covenant_script`. */
  function MaintenancePathCode(tree: AssetId, ids: InventoryIds, next: Code): Code { TreeStartCode(MaintenanceCode(tree, ids, next)) }

  predicate MaintenancePathAccepted(env: Env, tree: AssetId, ids: InventoryIds) { TreeStarts(env) && MaintenanceAccepted(env, tree, ids) }

  lemma MaintenancePathRuns(tree: AssetId, ids: InventoryIds, next: Code, env: Env, vm: Vm)
    requires Live(vm)
    ensures Exec(MaintenancePathCode(tree, ids, next), env, vm)
         == Exec(next, env, if MaintenancePathAccepted(env, tree, ids) then vm else Halted)
  {
    hide Exec, TreeStartCode, MaintenanceCode, TreeStarts, MaintenanceAccepted;
    TreeStartRuns(MaintenanceCode(tree, ids, next), env, vm);
    MaintenanceRuns(tree, ids, next, env, vm);
    ExecHalted(MaintenanceCode(tree, ids, next), env);
    ExecHalted(next, env);
  }
}
