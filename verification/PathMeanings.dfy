/** What each covenant path demands of a transaction, written out over the transaction's own fields. */
module PathMeanings {
  import opened Common
  import opened ScriptNumber
  import opened ScriptMachine
  import opened PlayerRules
  import opened CovenantFragments
  import opened PlayerCovenant
  import opened CraftCovenant
  import opened ChopCovenant
  import opened StateCovenants
  import opened CovenantPaths

  // ----- packets -----

  /** Roll, luck credit and axe are packets 5, 8 and 9: a hash, a number of nine bytes up to 20,000, and a tier. */
  lemma StatePackets(env: Env, i: nat, s: PlayerState)
    ensures StateAt(env, OfInput(i)) == Some(s) <==>
              && (5, i) in env.inputPackets && (8, i) in env.inputPackets && (9, i) in env.inputPackets
              && env.inputPackets[(5, i)] == s.luck.roll
              && |env.inputPackets[(8, i)]| == 9 && LittleEndian(env.inputPackets[(8, i)][..8]) == s.luck.credit <= 20_000
              && env.inputPackets[(8, i)][8] == 0
              && env.inputPackets[(9, i)] == [match s.axe case NoAxe => 0 case Wooden => 1 case Stone => 2 case Iron => 3]
    ensures StateAt(env, OfOutput) == Some(s) <==>
              && 5 in env.packets && 8 in env.packets && 9 in env.packets
              && env.packets[5] == s.luck.roll
              && |env.packets[8]| == 9 && LittleEndian(env.packets[8][..8]) == s.luck.credit <= 20_000 && env.packets[8][8] == 0
              && env.packets[9] == [match s.axe case NoAxe => 0 case Wooden => 1 case Stone => 2 case Iron => 3]
  {
    hide LittleEndian;
  }

  lemma SamePacketMeans(env: Env, packet: nat, input: nat)
    ensures SamePacket(env, packet, input) <==>
              && (packet, input) in env.inputPackets && packet in env.packets && env.packets[packet] == env.inputPackets[(packet, input)]
  {}

  /** A tree's place is packet 2: three fixed bytes, its number in four and its column and row in two each. */
  lemma PlacePacket(env: Env, place: Place)
    ensures PlaceAt(env, OfInput(1)) == Some(place) <==>
              && (2, 1) in env.inputPackets && |env.inputPackets[(2, 1)]| == 11
              && var p := env.inputPackets[(2, 1)];
                 && p[0] == 0x54 && p[1] == 0x52 && p[2] == 1
                 && LittleEndian(p[3..7]) == place.id && LittleEndian(p[7..9]) == place.x && LittleEndian(p[9..11]) == place.y
  {
    hide LittleEndian;
    if (2, 1) in env.inputPackets && |env.inputPackets[(2, 1)]| == 11 {
      var p := env.inputPackets[(2, 1)];
      assert p[..3] == [p[0], p[1], p[2]];
    }
  }

  // ----- lock, value and seed -----

  /** The lock is repeated and both sides hold exactly this many sats. */
  lemma RelockMeans(env: Env, input: nat, output: nat, sats: nat)
    ensures Relocked(env, input, output, sats) <==>
              && input in env.inputPrograms && output in env.outputPrograms
              && env.outputPrograms[output] == env.inputPrograms[input]
              && input in env.inputValues && env.inputValues[input] == sats
              && output in env.outputValues && env.outputValues[output] == sats
  {}

  /** The equipped axe is earned; on the first spend after issuance the state is the one activation gives. */
  lemma SeedMeans(env: Env, input: nat, xp: AssetId, s: PlayerState)
    requires StateAt(env, OfInput(input)) == Some(s)
    ensures Seeded(env, input, xp) <==>
              && Held(env, Input(input), xp) >= (match s.axe case NoAxe => 0 case Wooden => 1 case Stone => 16 case Iron => 97)
              && |env.groups| > 0 && env.groups[0].asset.group == 0 && input in env.outpoints
              && (env.groups[0].asset.txid == env.outpoints[input].0 ==>
                    && input in env.inputPrograms
                    && s.luck.roll == env.sha(Ascii("woodland.sh/player-roll/v2") + env.inputPrograms[input])
                    && s.luck.credit == 8_000 && s.axe == NoAxe)
  {
    hide AmountAt, DecodeAxe, DecodeCredit;
  }

  // ----- player paths -----

  /** A renewal keeps lock, dust, all three packets and all four balances. */
  lemma RenewalPathMeans(env: Env, ids: InventoryIds, dust: nat)
    ensures RenewalPathAccepted(env, ids, dust) <==>
              && Relocked(env, 1, 0, dust) && Seeded(env, 1, ids.xp)
              && SamePacket(env, 5, 1) && SamePacket(env, 8, 1) && SamePacket(env, 9, 1)
              && AmountAt(env, Output(0), ids.log) == AmountAt(env, Input(1), ids.log)
              && AmountAt(env, Output(0), ids.xp) == AmountAt(env, Input(1), ids.xp)
              && AmountAt(env, Output(0), ids.stone) == AmountAt(env, Input(1), ids.stone)
              && AmountAt(env, Output(0), ids.ironOre) == AmountAt(env, Input(1), ids.ironOre)
  {
    hide Relocked, Seeded, SamePacket, AmountAt;
    PlayerPackets(env, 1);
    FourUnchanged(env, 1, ids);
  }

  lemma PlayerPackets(env: Env, input: nat)
    ensures SamePackets(env, PLAYER_PACKETS, input) <==> SamePacket(env, 5, input) && SamePacket(env, 8, input) && SamePacket(env, 9, input)
    ensures SamePackets(env, LUCK_PACKETS, input) <==> SamePacket(env, 5, input) && SamePacket(env, 8, input)
  {
    hide SamePacket;
    assert PLAYER_PACKETS == [5, 8, 9] && LUCK_PACKETS == [5, 8];
    assert 5 in PLAYER_PACKETS && 8 in PLAYER_PACKETS && 9 in PLAYER_PACKETS && 5 in LUCK_PACKETS && 8 in LUCK_PACKETS;
  }

  lemma FourUnchanged(env: Env, from: nat, ids: InventoryIds)
    ensures AllUnchanged(env, from, 0, [ids.log, ids.xp, ids.stone, ids.ironOre]) <==>
              && AmountAt(env, Output(0), ids.log) == AmountAt(env, Input(from), ids.log)
              && AmountAt(env, Output(0), ids.xp) == AmountAt(env, Input(from), ids.xp)
              && AmountAt(env, Output(0), ids.stone) == AmountAt(env, Input(from), ids.stone)
              && AmountAt(env, Output(0), ids.ironOre) == AmountAt(env, Input(from), ids.ironOre)
  {
    hide AmountAt;
    var kept := [ids.log, ids.xp, ids.stone, ids.ironOre];
    assert kept[0] in kept && kept[1] in kept && kept[2] in kept && kept[3] in kept;
    if AllUnchanged(env, from, 0, kept) {
      assert Unchanged(env, from, 0, ids.log) && Unchanged(env, from, 0, ids.xp);
      assert Unchanged(env, from, 0, ids.stone) && Unchanged(env, from, 0, ids.ironOre);
    }
  }

  /** A withdrawal splits the state's LOG between outputs zero and one and keeps everything else. */
  lemma WithdrawPathMeans(env: Env, ids: InventoryIds, dust: nat)
    ensures WithdrawPathAccepted(env, ids, dust) <==>
              && Relocked(env, 0, 0, dust) && Seeded(env, 0, ids.xp)
              && SamePacket(env, 5, 0) && SamePacket(env, 8, 0) && SamePacket(env, 9, 0)
              && 1 in env.outputValues && 1 in env.inputValues && env.outputValues[1] == env.inputValues[1]
              && AmountAt(env, Input(0), ids.log).Some?
              && Held(env, Input(0), ids.log) == Held(env, Output(0), ids.log) + Held(env, Output(1), ids.log)
              && AmountAt(env, Output(0), ids.xp) == AmountAt(env, Input(0), ids.xp)
              && AmountAt(env, Output(0), ids.stone) == AmountAt(env, Input(0), ids.stone)
              && AmountAt(env, Output(0), ids.ironOre) == AmountAt(env, Input(0), ids.ironOre)
  {
    hide Relocked, Seeded, SamePacket, AmountAt;
    PlayerPackets(env, 0);
    var kept := [ids.xp, ids.stone, ids.ironOre];
    assert kept[0] in kept && kept[1] in kept && kept[2] in kept;
    if AllUnchanged(env, 0, 0, kept) {
      assert Unchanged(env, 0, 0, ids.xp) && Unchanged(env, 0, 0, ids.stone) && Unchanged(env, 0, 0, ids.ironOre);
    }
  }

  /** A craft keeps luck and experience, burns exactly the next recipe and shows its axe. */
  lemma CraftPathMeans(env: Env, ids: InventoryIds, dust: nat, axe: AxeTier)
    requires AxeAt(env, OfInput(0)) == Some(axe)
    ensures var (xp, log, stone, ore, next) :=
              match axe case NoAxe => (1, 1, 0, 0, Wooden) case Wooden => (16, 2, 2, 0, Stone) case _ => (97, 5, 0, 2, Iron);
            CraftPathAccepted(env, ids, dust) <==>
              && Relocked(env, 0, 0, dust) && Seeded(env, 0, ids.xp) && SamePacket(env, 5, 0) && SamePacket(env, 8, 0)
              && Counted(env, Input(0), ids) && Counted(env, Output(0), ids)
              && axe != Iron && AxeAt(env, OfOutput) == Some(next)
              && Held(env, Output(0), ids.xp) == Held(env, Input(0), ids.xp) >= xp
              && Held(env, Output(0), ids.log) + log == Held(env, Input(0), ids.log)
              && Held(env, Output(0), ids.stone) + stone == Held(env, Input(0), ids.stone)
              && Held(env, Output(0), ids.ironOre) + ore == Held(env, Input(0), ids.ironOre)
  {
    hide Relocked, Seeded, SamePacket, AxeAt, Held, AmountAt, AssetCount;
    PlayerPackets(env, 0);
    RecipeTable();
    RecipeRequirements(axe);
    match axe case NoAxe => case Wooden => case Stone => case Iron =>
  }

  /** As many assets are assigned there as the marker and those of the four that are. */
  ghost predicate Counted(env: Env, side: Side, ids: InventoryIds) {
    AssetCount(env, side)
      == 1 + (if AmountAt(env, side, ids.log).Some? then 1 else 0) + (if AmountAt(env, side, ids.xp).Some? then 1 else 0)
           + (if AmountAt(env, side, ids.stone).Some? then 1 else 0) + (if AmountAt(env, side, ids.ironOre).Some? then 1 else 0)
  }

  // ----- tree paths -----

  /** A regrowth raises a stump that has LOG to ten and keeps all else; maintenance keeps health too. */
  lemma TreePathsMean(env: Env, tree: AssetId, ids: InventoryIds)
    ensures var kept := TreeCarriedOver(env, tree, ids);
            && (RegrowthPathAccepted(env, tree, ids) <==>
                  kept && HealthAt(env, OfInput(1)) == Some(0) && Held(env, Input(1), ids.log) > 0 && HealthAt(env, OfOutput) == Some(10))
            && (MaintenancePathAccepted(env, tree, ids) <==>
                  kept && HealthAt(env, OfInput(1)).Some? && HealthAt(env, OfOutput) == HealthAt(env, OfInput(1)))
  {
    hide SamePacket, HealthAt, AmountAt;
    FourUnchanged(env, 1, ids);
  }

  /** Lock, value, place, marker and reserves of input one stand again at output zero. */
  ghost predicate TreeCarriedOver(env: Env, tree: AssetId, ids: InventoryIds) {
    && 1 in env.inputPrograms && 0 in env.outputPrograms && env.outputPrograms[0] == env.inputPrograms[1]
    && 1 in env.inputValues && 0 in env.outputValues && env.outputValues[0] == env.inputValues[1]
    && SamePacket(env, 2, 1)
    && AmountAt(env, Input(1), tree) == Some(1) && AmountAt(env, Output(0), tree) == Some(1)
    && AmountAt(env, Output(0), ids.log) == AmountAt(env, Input(1), ids.log)
    && AmountAt(env, Output(0), ids.xp) == AmountAt(env, Input(1), ids.xp)
    && AmountAt(env, Output(0), ids.stone) == AmountAt(env, Input(1), ids.stone)
    && AmountAt(env, Output(0), ids.ironOre) == AmountAt(env, Input(1), ids.ironOre)
  }

  /** A number below two to the 64 in nine canonical bytes: eight of it, low byte first, and a zero. */
  lemma NineBytes(p: Bytes, h: U64)
    requires |p| == 9
    ensures ToFixedWidth(Decode(p), 9) == Some(p) && Decode(p) == h <==> p[8] == 0 && LittleEndian(p[..8]) == h
  {
    var q := FixedLittleEndian(h, 8);
    assert Pow256(8) == 0x1_0000_0000_0000_0000;
    FixedLittleEndianValue(h, 8);
    UnsignedDecode(q);
    FixedWidthRoundTrip(p);
    if ToFixedWidth(Decode(p), 9) == Some(p) && Decode(p) == h {
      DecodeInjective(p, q + [0]);
      assert (q + [0])[..8] == q;
    }
    if p[8] == 0 {
      UnsignedDecode(p[..8]);
      assert p == p[..8] + [0];
    }
  }

  /** Health is packet 7, such a number. */
  lemma HealthPacket(env: Env, h: U64)
    ensures HealthAt(env, OfInput(1)) == Some(h) <==>
              && (7, 1) in env.inputPackets && |env.inputPackets[(7, 1)]| == 9
              && env.inputPackets[(7, 1)][8] == 0 && LittleEndian(env.inputPackets[(7, 1)][..8]) == h
    ensures HealthAt(env, OfOutput) == Some(h) <==>
              && 7 in env.packets && |env.packets[7]| == 9 && env.packets[7][8] == 0 && LittleEndian(env.packets[7][..8]) == h
  {
    hide Decode, ToFixedWidth, LittleEndian;
    if (7, 1) in env.inputPackets && |env.inputPackets[(7, 1)]| == 9 { NineBytes(env.inputPackets[(7, 1)], h); }
    if 7 in env.packets && |env.packets[7]| == 9 { NineBytes(env.packets[7], h); }
  }

  /** The tree gives and the player gains exactly so much of an asset the tree has. */
  ghost predicate Moves(env: Env, asset: AssetId, n: nat) {
    && Held(env, Input(1), asset) > 0 && Held(env, Output(1), asset) + n == Held(env, Input(1), asset)
    && Held(env, Output(0), asset) == Held(env, Input(0), asset) + n
  }

  /**
   A chop keeps both locks, all four values, the tree's place and marker; it advances the player as one swing does, and
   health, LOG and XP move by the reward and STONE and IRON ORE by its material.
  */
  lemma ChopPathMeans(env: Env, tree: AssetId, ids: InventoryIds, dust: nat, s: PlayerState)
    requires StateAt(env, OfInput(0)) == Some(s)
    ensures var r := Advance(env.sha, s.luck, Held(env, Input(0), ids.xp), s.axe);
            var material := MaterialDrop(env.sha, r.next.roll, Held(env, Input(0), ids.xp), r.success);
            var unit := if r.success then 1 else 0;
            ChopPathAccepted(env, tree, ids, dust) <==>
              && Relocked(env, 0, 0, dust) && Relocked(env, 1, 1, dust) && SamePacket(env, 2, 1) && Seeded(env, 0, ids.xp)
              && Counted(env, Input(0), ids) && Counted(env, Output(0), ids)
              && AmountAt(env, Input(1), tree) == Some(1) && AmountAt(env, Output(1), tree) == Some(1)
              && StateAt(env, OfOutput) == Some(PlayerState(r.next, s.axe))
              && HealthAt(env, OfInput(1)).Some? && HealthAt(env, OfOutput).Some?
              && 0 < HealthAt(env, OfInput(1)).value == HealthAt(env, OfOutput).value + unit
              && Moves(env, ids.log, unit) && Moves(env, ids.xp, unit)
              && Moves(env, ids.stone, if material == StoneDrop then 1 else 0)
              && Moves(env, ids.ironOre, if material == IronOreDrop then 1 else 0)
  {
    hide Relocked, Seeded, SamePacket, HealthAt, AxeAt, CreditAt, Advance, MaterialOf, BucketFold, AssetCount, AmountAt;
  }
}
