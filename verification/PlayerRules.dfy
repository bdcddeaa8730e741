/** The host's rules of player progression: drop rates, deterministic luck, materials and axe recipes. */
module PlayerRules {
  import opened Common
  import opened ScriptNumber

  const CHOP_ROLL_BASIS_POINTS := 10_000
  const BASE_LOG_DROP_BASIS_POINTS := 2_000
  const LEVEL_LOG_DROP_BONUS_BASIS_POINTS := 200
  const MAX_LEVEL_LOG_DROP_BASIS_POINTS := 3_000
  const WOODCUTTING_XP_PER_LOG := 25
  const STONE_DROP_BASIS_POINTS := 1_000
  const IRON_ORE_DROP_BASIS_POINTS := 200
  const MAX_LUCK_CREDIT := 20_000
  const INITIAL_LUCK_CREDIT := 8_000
  const LEVEL_LOG_DROP_XP_THRESHOLDS: seq<nat> := [1_154, 4_470, 13_363, 37_224, 101_333]

  const MATERIAL_ROLL_DOMAIN: Bytes := Ascii("woodland.sh/material-roll/v1")

  type Sha = Bytes -> Digest

  function Ascii(text: string): Bytes {
    seq(|text|, i requires 0 <= i < |text| => text[i] as int % 256)
  }

  type Credit = c: nat | c <= MAX_LUCK_CREDIT

  datatype AxeTier = NoAxe | Wooden | Stone | Iron {
    function Tier(): nat {
      match this case NoAxe => 0 case Wooden => 1 case Stone => 2 case Iron => 3
    }

    function BonusBasisPoints(): nat {
      match this case NoAxe => 0 case Wooden => 200 case Stone => 500 case Iron => 800
    }

    function NextRecipe(): Option<AxeRecipe> {
      match this
      case NoAxe => Some(AxeRecipe(Wooden, 1, 1, 0, 0))
      case Wooden => Some(AxeRecipe(Stone, 5, 2, 2, 0))
      case Stone => Some(AxeRecipe(Iron, 15, 5, 0, 2))
      case Iron => None
    }
  }

  datatype AxeRecipe = AxeRecipe(axe: AxeTier, requiredLevel: nat, logCost: nat, stoneCost: nat, ironOreCost: nat) {
    function RequiredXpBalance(): nat
      requires 1 <= requiredLevel <= 15
    {
      var balance := XpBalanceFor(XpForLevel(requiredLevel));
      if balance == 0 then 1 else balance
    }
  }

  /** Woodcutting XP at levels 1 through 15. */
  function XpForLevel(level: nat): nat
    requires 1 <= level <= 15
  {
    [0, 83, 174, 276, 388, 512, 650, 801, 969, 1_154, 1_358, 1_584, 1_833, 2_107, 2_411][level - 1]
  }

  /** Smallest XP balance reaching a Woodcutting XP amount. */
  function XpBalanceFor(woodcuttingXp: nat): nat {
    (woodcuttingXp + WOODCUTTING_XP_PER_LOG - 1) / WOODCUTTING_XP_PER_LOG
  }

  function RequiredXp(axe: AxeTier): nat {
    match axe case NoAxe => 0 case Wooden => 1 case Stone => 16 case Iron => 97
  }

  /** The balance that backs each tier is the one its recipe demands; IRON ORE unlocks at level 10. */
  lemma RecipeRequirements(axe: AxeTier)
    ensures XpBalanceFor(XpForLevel(10)) == IRON_ORE_UNLOCK_XP_BALANCE
    ensures axe.NextRecipe().Some? ==>
              var recipe := axe.NextRecipe().value;
              recipe.axe.Tier() == axe.Tier() + 1 && recipe.RequiredXpBalance() == RequiredXp(recipe.axe)
    ensures axe.NextRecipe().None? <==> axe == Iron
  {
    assert XpForLevel(1) == 0 && XpForLevel(5) == 388 && XpForLevel(15) == 2_411;
  }

  // ----- drop rate -----

  /** Number of thresholds in `t` reached by an XP balance. */
  function LevelsReached(t: seq<nat>, xp: nat): (n: nat)
    ensures n <= |t|
  {
    if t == [] then 0 else (if xp >= XpBalanceFor(t[0]) then 1 else 0) + LevelsReached(t[1..], xp)
  }

  function LevelBasisPoints(xp: nat): (rate: nat)
    ensures BASE_LOG_DROP_BASIS_POINTS <= rate <= MAX_LEVEL_LOG_DROP_BASIS_POINTS
  {
    BASE_LOG_DROP_BASIS_POINTS + LEVEL_LOG_DROP_BONUS_BASIS_POINTS * LevelsReached(LEVEL_LOG_DROP_XP_THRESHOLDS, xp)
  }

  function LogDropBasisPoints(xp: nat, axe: AxeTier): (rate: nat)
    ensures BASE_LOG_DROP_BASIS_POINTS <= rate <= 3_800
  {
    LevelBasisPoints(xp) + axe.BonusBasisPoints()
  }

  /** The host's loop, with its explicit cap; the cap never changes the result. */
  method ComputeLogDropBasisPoints(xp: nat, axe: AxeTier) returns (rate: nat)
    ensures rate == LogDropBasisPoints(xp, axe)
  {
    var thresholds := LEVEL_LOG_DROP_XP_THRESHOLDS;
    var basis: int := BASE_LOG_DROP_BASIS_POINTS;
    var index := 0;
    while index < |thresholds|
      invariant index <= |thresholds|
      invariant basis + LEVEL_LOG_DROP_BONUS_BASIS_POINTS * LevelsReached(thresholds[index..], xp)
             == LevelBasisPoints(xp)
    {
      if xp >= XpBalanceFor(thresholds[index]) { basis := basis + LEVEL_LOG_DROP_BONUS_BASIS_POINTS; }
      index := index + 1;
    }
    if basis > MAX_LEVEL_LOG_DROP_BASIS_POINTS { basis := MAX_LEVEL_LOG_DROP_BASIS_POINTS; }
    rate := basis + axe.BonusBasisPoints();
  }

  // ----- rolls -----

  /** The host's fold over the bytes from last to first, reduced at every byte. */
  function BucketFold(bytes: Bytes): (value: nat)
    ensures value < CHOP_ROLL_BASIS_POINTS
  {
    if bytes == [] then 0 else (BucketFold(bytes[1..]) * 256 + bytes[0]) % CHOP_ROLL_BASIS_POINTS
  }

  /** Reducing at every byte gives the whole little-endian value modulo 10,000. */
  lemma {:induction false} BucketIsLittleEndianRemainder(bytes: Bytes)
    ensures BucketFold(bytes) == LittleEndian(bytes) % CHOP_ROLL_BASIS_POINTS
  {
    if bytes != [] {
      BucketIsLittleEndianRemainder(bytes[1..]);
      var v := LittleEndian(bytes[1..]);
      assert v * 256 + bytes[0]
          == 256 * (v % CHOP_ROLL_BASIS_POINTS) + bytes[0] + CHOP_ROLL_BASIS_POINTS * (256 * (v / CHOP_ROLL_BASIS_POINTS));
      RemainderShift(256 * (v % CHOP_ROLL_BASIS_POINTS) + bytes[0], 256 * (v / CHOP_ROLL_BASIS_POINTS));
    }
  }

  lemma RemainderShift(a: nat, k: nat)
    ensures (a + CHOP_ROLL_BASIS_POINTS * k) % CHOP_ROLL_BASIS_POINTS == a % CHOP_ROLL_BASIS_POINTS
  {
    assert (a + CHOP_ROLL_BASIS_POINTS * k) / CHOP_ROLL_BASIS_POINTS == a / CHOP_ROLL_BASIS_POINTS + k;
  }

  datatype Luck = Luck(roll: Digest, credit: Credit)

  datatype Reward = Reward(next: Luck, success: bool)

  function Advance(sha: Sha, luck: Luck, xp: nat, axe: AxeTier): Reward {
    var nextRoll := sha(luck.roll);
    var rate := LogDropBasisPoints(xp, axe);
    var (credit, success) := Draw(luck.credit, rate, BucketFold(nextRoll));
    Reward(Luck(nextRoll, credit), success)
  }

  /** One draw at a given rate: the credit afterwards and whether it pays. */
  function Draw(credit: Credit, rate: nat, bucket: nat): (r: (Credit, bool))
    requires rate <= CHOP_ROLL_BASIS_POINTS
  {
    var raw := credit + rate;
    var success := if raw > MAX_LUCK_CREDIT then true
                   else if raw < CHOP_ROLL_BASIS_POINTS then false
                   else bucket < rate;
    (if success then raw - CHOP_ROLL_BASIS_POINTS else raw, success)
  }

  /** The mutable packets of one player. */
  datatype PlayerState = PlayerState(luck: Luck, axe: AxeTier)

  // ----- materials -----

  datatype Material = NoMaterial | StoneDrop | IronOreDrop {
    function Code(): nat {
      match this case NoMaterial => 0 case StoneDrop => 1 case IronOreDrop => 2
    }
  }

  const IRON_ORE_UNLOCK_XP_BALANCE := 47

  function MaterialOf(bucket: nat, xp: nat): Material {
    if xp >= IRON_ORE_UNLOCK_XP_BALANCE then
      if bucket < IRON_ORE_DROP_BASIS_POINTS then IronOreDrop
      else if bucket < IRON_ORE_DROP_BASIS_POINTS + STONE_DROP_BASIS_POINTS then StoneDrop
      else NoMaterial
    else if bucket < STONE_DROP_BASIS_POINTS then StoneDrop
    else NoMaterial
  }

  function MaterialDrop(sha: Sha, nextRoll: Digest, xp: nat, success: bool): Material {
    if !success then NoMaterial else MaterialOf(BucketFold(sha(MATERIAL_ROLL_DOMAIN + nextRoll)), xp)
  }

  // ----- the odds -----

  predicate InRange(low: nat, b: nat, high: nat) { low <= b < high }

  function BucketRange(low: nat, high: nat): set<nat> { set b: nat | low <= b < high && InRange(low, b, high) }

  lemma {:induction false} RangeSize(low: nat, high: nat)
    requires low <= high
    ensures |BucketRange(low, high)| == high - low
  {
    if low < high {
      RangeSize(low, high - 1);
      assert BucketRange(low, high) == BucketRange(low, high - 1) + {high - 1};
    } else {
      assert BucketRange(low, high) == {};
    }
  }

  predicate PaysOut(credit: Credit, rate: nat, bucket: nat)
    requires rate <= 10_000
  {
    Draw(credit, rate, bucket).1
  }

  /** The buckets that pay at a credit and a rate. */
  function PayingBuckets(credit: Credit, rate: nat): set<nat>
    requires rate <= 10_000
  {
    set b: nat | 0 <= b < 10_000 && PaysOut(credit, rate, b)
  }

  /** A draw pays on all buckets above the corridor, on none below it, and inside on the `rate` lowest of 10,000. */
  lemma DrawOdds(credit: Credit, rate: nat)
    requires rate <= 10_000
    ensures |PayingBuckets(credit, rate)| ==
              if credit + rate > 20_000 then 10_000 else if credit + rate < 10_000 then 0 else rate
    ensures 10_000 <= credit + rate <= 20_000 ==> forall b: nat :: b in PayingBuckets(credit, rate) <==> b < rate
  {
    var paying := PayingBuckets(credit, rate);
    if credit + rate > 20_000 {
      assert paying == BucketRange(0, 10_000);
      RangeSize(0, 10_000);
    } else if credit + rate < 10_000 {
      assert paying == {};
    } else {
      assert paying == BucketRange(0, rate);
      RangeSize(0, rate);
    }
  }

  /** What one swing does, down to the bytes of the next roll. */
  lemma AdvanceByBytes(sha: Sha, luck: Luck, xp: nat, axe: AxeTier)
    ensures var (r, raw) := (Advance(sha, luck, xp, axe), luck.credit + LogDropBasisPoints(xp, axe));
            && r.next.roll == sha(luck.roll)
            && r.next.credit == raw - (if r.success then 10_000 else 0)
            && (r.success <==>
                  raw > 20_000 || (raw >= 10_000 && LittleEndian(sha(luck.roll)) % 10_000 < LogDropBasisPoints(xp, axe)))
  {
    BucketIsLittleEndianRemainder(sha(luck.roll));
  }

  /** The published rate: 20%, 2% more at each of five experience balances, and the axe's bonus. */
  lemma DropRateTable(xp: nat, axe: AxeTier)
    ensures LogDropBasisPoints(xp, axe) ==
              (if xp < 47 then 2_000 else if xp < 179 then 2_200 else if xp < 535 then 2_400
               else if xp < 1_489 then 2_600 else if xp < 4_054 then 2_800 else 3_000)
              + (match axe case NoAxe => 0 case Wooden => 200 case Stone => 500 case Iron => 800)
  {
    var t := LEVEL_LOG_DROP_XP_THRESHOLDS;
    assert t[1..][1..] == t[2..] && t[2..][1..] == t[3..] && t[3..][1..] == t[4..] && t[4..][1..] == [];
    assert LevelsReached(t[4..], xp) == (if xp >= 4_054 then 1 else 0);
    assert LevelsReached(t[3..], xp) == LevelsReached(t[4..], xp) + (if xp >= 1_489 then 1 else 0);
    assert LevelsReached(t[2..], xp) == LevelsReached(t[3..], xp) + (if xp >= 535 then 1 else 0);
    assert LevelsReached(t[1..], xp) == LevelsReached(t[2..], xp) + (if xp >= 179 then 1 else 0);
    assert LevelsReached(t, xp) == LevelsReached(t[1..], xp) + (if xp >= 47 then 1 else 0);
  }

  predicate DropsOn(material: Material, bucket: nat, xp: nat) { MaterialOf(bucket, xp) == material }

  function BucketsOf(material: Material, xp: nat): set<nat> { set b: nat | 0 <= b < 10_000 && DropsOn(material, b, xp) }

  /** STONE comes on a tenth of the rewards at any experience, IRON ORE on a fiftieth from 47 on, never both. */
  lemma MaterialOdds(xp: nat)
    ensures |BucketsOf(StoneDrop, xp)| == 1_000
    ensures |BucketsOf(IronOreDrop, xp)| == if xp >= 47 then 200 else 0
    ensures forall b: nat :: b in BucketsOf(IronOreDrop, xp) <==> xp >= 47 && b < 200
    ensures forall b: nat :: b in BucketsOf(StoneDrop, xp) <==> if xp >= 47 then 200 <= b < 1_200 else b < 1_000
  {
    var (stone, ore) := (BucketsOf(StoneDrop, xp), BucketsOf(IronOreDrop, xp));
    if xp >= 47 {
      assert ore == BucketRange(0, 200) && stone == BucketRange(200, 1_200);
      RangeSize(0, 200);
      RangeSize(200, 1_200);
    } else {
      assert ore == {} && stone == BucketRange(0, 1_000);
      RangeSize(0, 1_000);
    }
  }

  /** Only a reward brings material, chosen by the hash of the tagged next roll. */
  lemma MaterialByBytes(sha: Sha, nextRoll: Digest, xp: nat, success: bool)
    ensures var b := LittleEndian(sha(Ascii("woodland.sh/material-roll/v1") + nextRoll)) % 10_000;
            && (MaterialDrop(sha, nextRoll, xp, success) == IronOreDrop <==> success && xp >= 47 && b < 200)
            && (MaterialDrop(sha, nextRoll, xp, success) == StoneDrop <==>
                  success && if xp >= 47 then 200 <= b < 1_200 else b < 1_000)
  {
    BucketIsLittleEndianRemainder(sha(MATERIAL_ROLL_DOMAIN + nextRoll));
  }

  /** The three recipes in order, each from the tier before, at 1, 16 and 97 experience units. */
  lemma RecipeTable()
    ensures NoAxe.NextRecipe() == Some(AxeRecipe(Wooden, 1, 1, 0, 0)) && RequiredXp(Wooden) == 1
    ensures Wooden.NextRecipe() == Some(AxeRecipe(Stone, 5, 2, 2, 0)) && RequiredXp(Stone) == 16
    ensures Stone.NextRecipe() == Some(AxeRecipe(Iron, 15, 5, 0, 2)) && RequiredXp(Iron) == 97
    ensures Iron.NextRecipe() == None
  {}

  // ----- packets -----

  function DecodeAxe(encoded: Bytes): Option<AxeTier> {
    if encoded == [0] then Some(NoAxe)
    else if encoded == [1] then Some(Wooden)
    else if encoded == [2] then Some(Stone)
    else if encoded == [3] then Some(Iron)
    else None
  }

  function DecodeCredit(encoded: Bytes): Option<Credit> {
    if |encoded| != 9 || encoded[8] != 0 then None
    else if LittleEndian(encoded[..8]) > MAX_LUCK_CREDIT then None
    else Some(LittleEndian(encoded[..8]))
  }

  function FixedLittleEndian(v: nat, n: nat): (b: Bytes)
    ensures |b| == n
  {
    if n == 0 then [] else [v % 256] + FixedLittleEndian(v / 256, n - 1)
  }

  /** Eight little-endian bytes and a zero sign byte. */
  function EncodeCredit(credit: Credit): (b: Bytes)
    ensures |b| == 9
  {
    FixedLittleEndian(credit, 8) + [0]
  }

  function Pow256(n: nat): (p: nat)
    ensures p > 0
  {
    if n == 0 then 1 else 256 * Pow256(n - 1)
  }

  lemma {:induction false} FixedLittleEndianValue(v: nat, n: nat)
    requires v < Pow256(n)
    ensures LittleEndian(FixedLittleEndian(v, n)) == v
  {
    if n > 0 {
      FixedLittleEndianValue(v / 256, n - 1);
      assert FixedLittleEndian(v, n)[1..] == FixedLittleEndian(v / 256, n - 1);
    }
  }

  /** A credit packet decodes to `c` exactly when it is the encoding of `c`. */
  lemma CreditPacket(encoded: Bytes, c: Credit)
    ensures DecodeCredit(encoded) == Some(c) <==> encoded == EncodeCredit(c)
  {
    assert c < Pow256(8);
    FixedLittleEndianValue(c, 8);
    assert EncodeCredit(c)[..8] == FixedLittleEndian(c, 8);
    if DecodeCredit(encoded) == Some(c) {
      LittleEndianInjective(encoded[..8], FixedLittleEndian(c, 8));
      assert encoded == encoded[..8] + [encoded[8]];
    }
  }

  /** An axe packet decodes to a tier exactly when it is the one byte naming it. */
  lemma AxePacket(encoded: Bytes, axe: AxeTier)
    ensures DecodeAxe(encoded) == Some(axe) <==> encoded == [axe.Tier()]
  {}

  // ----- script numbers agree with the host decoders -----

  /** The integer a fixed-width packet holds for the covenant: canonical, non-negative, below the limit. */
  function ScriptPacket(packet: Bytes, width: nat, limit: nat): Option<nat> {
    if |packet| == width && ToFixedWidth(Decode(packet), width) == Some(packet) && 0 <= Decode(packet) < limit
    then Some(Decode(packet)) else None
  }

  lemma ScriptReadsAxe(packet: Bytes)
    ensures ScriptPacket(packet, 1, 4) == match DecodeAxe(packet) case Some(a) => Some(a.Tier()) case None => None
  {
    if |packet| == 1 { FixedWidthRoundTrip(packet); }
  }

  lemma ScriptReadsCredit(packet: Bytes)
    ensures ScriptPacket(packet, 9, MAX_LUCK_CREDIT + 1) == DecodeCredit(packet)
  {
    if |packet| == 9 {
      FixedWidthRoundTrip(packet);
      if packet[8] == 0 {
        assert packet == packet[..8] + [0];
        UnsignedDecode(packet[..8]);
      } else if packet[8] < 128 {
        LastByteWeight(packet, 8);
      }
    }
  }

  /** A non-zero last byte makes the magnitude at least 256 to the number of bytes before it. */
  lemma LastByteWeight(p: Bytes, n: nat)
    requires |p| == n + 1 && n >= 2 && 0 < p[n] < 128
    ensures Magnitude(p) > MAX_LUCK_CREDIT
  {
    if n == 2 {
      assert Magnitude(p) == p[0] + 256 * Magnitude(p[1..]);
      assert Magnitude(p[1..]) == p[1] + 256 * Magnitude(p[2..]);
    } else {
      LastByteWeight(p[1..], n - 1);
    }
  }
}
