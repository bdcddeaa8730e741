/** Variance control: what the bounded luck credit guarantees over every run of swings. */
module LuckBounds {
  import opened Common
  import opened ScriptNumber
  import opened PlayerRules

  /** One swing: the drop rate in force and the bucket the roll fell into. */
  datatype Swing = Swing(rate: nat, bucket: nat)

  /** Rates a player can have at any XP balance with any axe; they may change from swing to swing. */
  predicate Playable(swings: seq<Swing>) {
    forall s <- swings :: BASE_LOG_DROP_BASIS_POINTS <= s.rate <= 3_800
  }

  function CreditAfter(credit: Credit, swings: seq<Swing>): Credit
    requires Playable(swings)
    decreases |swings|
  {
    if swings == [] then credit
    else CreditAfter(Draw(credit, swings[0].rate, swings[0].bucket).0, swings[1..])
  }

  function Outcomes(credit: Credit, swings: seq<Swing>): (o: seq<bool>)
    requires Playable(swings)
    ensures |o| == |swings|
    decreases |swings|
  {
    if swings == [] then []
    else
      var (next, success) := Draw(credit, swings[0].rate, swings[0].bucket);
      [success] + Outcomes(next, swings[1..])
  }

  function Rewards(outcomes: seq<bool>): nat {
    if outcomes == [] then 0 else (if outcomes[0] then 1 else 0) + Rewards(outcomes[1..])
  }

  function Expectation(swings: seq<Swing>): nat {
    if swings == [] then 0 else swings[0].rate + Expectation(swings[1..])
  }

  /** Credit is exactly the expectation not yet paid out. */
  lemma {:induction false} CreditBalance(credit: Credit, swings: seq<Swing>)
    requires Playable(swings)
    ensures credit + Expectation(swings)
         == CreditAfter(credit, swings) + CHOP_ROLL_BASIS_POINTS * Rewards(Outcomes(credit, swings))
    decreases |swings|
  {
    if swings != [] {
      var (next, success) := Draw(credit, swings[0].rate, swings[0].bucket);
      CreditBalance(next, swings[1..]);
      assert Outcomes(credit, swings)[1..] == Outcomes(next, swings[1..]);
    }
  }

  /** Rewards never stray more than two LOG from the accumulated expectation, whatever the rolls. */
  lemma RewardsTrackExpectation(credit: Credit, swings: seq<Swing>)
    requires Playable(swings)
    ensures var paid := CHOP_ROLL_BASIS_POINTS * Rewards(Outcomes(credit, swings));
            -2 * CHOP_ROLL_BASIS_POINTS <= paid - Expectation(swings) <= 2 * CHOP_ROLL_BASIS_POINTS
  {
    CreditBalance(credit, swings);
  }

  // ----- streaks -----

  lemma {:induction false} OutcomeSuffix(credit: Credit, swings: seq<Swing>, from: nat)
    requires Playable(swings) && from <= |swings|
    ensures Outcomes(credit, swings)[from..] == Outcomes(CreditAfter(credit, swings[..from]), swings[from..])
    decreases |swings|
  {
    if from > 0 {
      OutcomeSuffix(Draw(credit, swings[0].rate, swings[0].bucket).0, swings[1..], from - 1);
      assert swings[..from][1..] == swings[1..][..from - 1];
    }
  }

  lemma {:induction false} OutcomePrefix(credit: Credit, swings: seq<Swing>, to: nat)
    requires Playable(swings) && to <= |swings|
    ensures Outcomes(credit, swings)[..to] == Outcomes(credit, swings[..to])
    decreases |swings|
  {
    if to > 0 {
      OutcomePrefix(Draw(credit, swings[0].rate, swings[0].bucket).0, swings[1..], to - 1);
      assert swings[..to][1..] == swings[1..][..to - 1];
    }
  }

  /** A window of a run is itself a run, from the credit reached before it. */
  lemma OutcomeWindow(credit: Credit, swings: seq<Swing>, from: nat, to: nat)
    requires Playable(swings) && from <= to <= |swings|
    ensures Outcomes(credit, swings)[from..to]
         == Outcomes(CreditAfter(credit, swings[..from]), swings[from..to])
  {
    OutcomeSuffix(credit, swings, from);
    OutcomePrefix(CreditAfter(credit, swings[..from]), swings[from..], to - from);
    assert swings[from..][..to - from] == swings[from..to];
    assert Outcomes(credit, swings)[from..][..to - from] == Outcomes(credit, swings)[from..to];
  }

  predicate All(outcomes: seq<bool>, value: bool) { forall i :: 0 <= i < |outcomes| ==> outcomes[i] == value }

  /** Every miss adds at least the base rate, and a miss needs room below the maximum credit. */
  lemma {:induction false} MissesAccumulate(credit: Credit, swings: seq<Swing>)
    requires Playable(swings) && All(Outcomes(credit, swings), false)
    ensures credit + BASE_LOG_DROP_BASIS_POINTS * |swings| <= CreditAfter(credit, swings)
    decreases |swings|
  {
    if swings != [] {
      var o := Outcomes(credit, swings);
      var next := Draw(credit, swings[0].rate, swings[0].bucket).0;
      assert !o[0] && o[1..] == Outcomes(next, swings[1..]);
      MissesAccumulate(next, swings[1..]);
    }
  }

  /** `top` bounds the rates of the streak. */
  predicate RatesAtMost(swings: seq<Swing>, top: nat) { forall s <- swings :: s.rate <= top }

  /** Every success spends more than any rate earns. */
  lemma {:induction false} SuccessesSpend(credit: Credit, swings: seq<Swing>, top: nat)
    requires Playable(swings) && RatesAtMost(swings, top) && All(Outcomes(credit, swings), true)
    ensures CreditAfter(credit, swings) <= credit - (CHOP_ROLL_BASIS_POINTS - top) * |swings|
    decreases |swings|
  {
    if swings != [] {
      var o := Outcomes(credit, swings);
      var next := Draw(credit, swings[0].rate, swings[0].bucket).0;
      assert o[0] && o[1..] == Outcomes(next, swings[1..]);
      SuccessesSpend(next, swings[1..], top);
      assert (CHOP_ROLL_BASIS_POINTS - top) * |swings|
          == (CHOP_ROLL_BASIS_POINTS - top) * |swings[1..]| + (CHOP_ROLL_BASIS_POINTS - top);
    }
  }

  /** No run, from any credit, misses more than ten swings in a row. */
  lemma AtMostTenMisses(credit: Credit, swings: seq<Swing>, from: nat, to: nat)
    requires Playable(swings) && from <= to <= |swings|
    requires All(Outcomes(credit, swings)[from..to], false)
    ensures to - from <= 10
  {
    OutcomeWindow(credit, swings, from, to);
    MissesAccumulate(CreditAfter(credit, swings[..from]), swings[from..to]);
  }

  /** No run pays more than three swings in a row, nor more than two while rates stay at or below one third. */
  lemma AtMostThreeSuccesses(credit: Credit, swings: seq<Swing>, from: nat, to: nat)
    requires Playable(swings) && from <= to <= |swings|
    requires All(Outcomes(credit, swings)[from..to], true)
    ensures to - from <= 3
    ensures RatesAtMost(swings[from..to], CHOP_ROLL_BASIS_POINTS / 3) ==> to - from <= 2
  {
    hide Outcomes, CreditAfter, All, RatesAtMost;
    OutcomeWindow(credit, swings, from, to);
    var start := CreditAfter(credit, swings[..from]);
    var streak := swings[from..to];
    PlayableRates(streak);
    SuccessesSpend(start, streak, 3_800);
    if RatesAtMost(streak, CHOP_ROLL_BASIS_POINTS / 3) {
      SuccessesSpend(start, streak, CHOP_ROLL_BASIS_POINTS / 3);
    }
  }

  lemma PlayableRates(swings: seq<Swing>)
    requires Playable(swings)
    ensures RatesAtMost(swings, 3_800)
  {}

  // ----- the player's own luck -----

  /** The state of progression a swing is made in. */
  datatype Progress = Progress(xp: nat, axe: AxeTier)

  /** The swings a lineage makes: its own rolls against the rate of each moment. */
  function LineageSwings(sha: Sha, roll: Digest, progress: seq<Progress>): (swings: seq<Swing>)
    ensures |swings| == |progress| && Playable(swings)
    decreases |progress|
  {
    if progress == [] then []
    else
      var next := sha(roll);
      [Swing(LogDropBasisPoints(progress[0].xp, progress[0].axe), BucketFold(next))]
        + LineageSwings(sha, next, progress[1..])
  }

  function LuckAfter(sha: Sha, luck: Luck, progress: seq<Progress>): Luck
    decreases |progress|
  {
    if progress == [] then luck
    else LuckAfter(sha, Advance(sha, luck, progress[0].xp, progress[0].axe).next, progress[1..])
  }

  function LineageRewards(sha: Sha, luck: Luck, progress: seq<Progress>): seq<bool>
    decreases |progress|
  {
    if progress == [] then []
    else
      var reward := Advance(sha, luck, progress[0].xp, progress[0].axe);
      [reward.success] + LineageRewards(sha, reward.next, progress[1..])
  }

  /** The bounds above are about the host's `advance`: a lineage is one of the runs they speak of. */
  lemma {:induction false} LineageFollowsSwings(sha: Sha, luck: Luck, progress: seq<Progress>)
    ensures var swings := LineageSwings(sha, luck.roll, progress);
            && LuckAfter(sha, luck, progress).credit == CreditAfter(luck.credit, swings)
            && LineageRewards(sha, luck, progress) == Outcomes(luck.credit, swings)
    decreases |progress|
  {
    if progress != [] {
      var reward := Advance(sha, luck, progress[0].xp, progress[0].axe);
      LineageFollowsSwings(sha, reward.next, progress[1..]);
      assert LineageSwings(sha, luck.roll, progress)[1..] == LineageSwings(sha, reward.next.roll, progress[1..]);
    }
  }

  // ----- a hash that plays a pattern -----

  /** A roll with a counter and a bucket above every rate, or below. */
  function Marked(n: byte, high: bool): Digest { [n, if high then 255 else 0] + Zeros(30) }

  lemma {:induction false} ZerosAreNothing(n: nat)
    ensures LittleEndian(Zeros(n)) == 0
  {
    if n > 0 {
      assert Zeros(n)[1..] == Zeros(n - 1);
      ZerosAreNothing(n - 1);
    }
  }

  lemma MarkedBucket(n: byte, high: bool)
    ensures if high then BucketFold(Marked(n, high)) >= 3_800 else BucketFold(Marked(n, high)) < BASE_LOG_DROP_BASIS_POINTS
  {
    var roll := Marked(n, high);
    ZerosAreNothing(30);
    assert roll[1..][1..] == Zeros(30);
    BucketIsLittleEndianRemainder(roll);
  }

  /** A hash under which a lineage's buckets follow a pattern. */
  function Clock(pattern: seq<bool>): Sha
    requires |pattern| <= 100
  {
    b => if b != [] && b[0] < |pattern| then Marked(b[0] + 1, pattern[b[0]]) else Marked(0, false)
  }

  /** The outcomes at one rate when each bucket is above it or below. */
  function Plays(credit: Credit, rate: nat, pattern: seq<bool>): seq<bool>
    requires rate <= 3_800
    decreases |pattern|
  {
    if pattern == [] then []
    else
      var (next, success) := Draw(credit, rate, if pattern[0] then 9_999 else 0);
      [success] + Plays(next, rate, pattern[1..])
  }

  /** Every swing is made at one rate. */
  predicate AtRate(progress: seq<Progress>, rate: nat) { forall p <- progress :: LogDropBasisPoints(p.xp, p.axe) == rate }

  /** Under the clock a lineage at one rate plays its pattern. */
  lemma {:induction false} ClockPlays(pattern: seq<bool>, k: nat, credit: Credit, mark: bool, progress: seq<Progress>, rate: nat)
    requires k <= |pattern| <= 100 && |progress| == |pattern| - k && AtRate(progress, rate) && rate <= 3_800
    ensures LineageRewards(Clock(pattern), Luck(Marked(k, mark), credit), progress) == Plays(credit, rate, pattern[k..])
    decreases |pattern| - k
  {
    hide LogDropBasisPoints, BucketFold;
    if k < |pattern| {
      var next := Marked(k + 1, pattern[k]);
      MarkedBucket(k + 1, pattern[k]);
      assert Clock(pattern)(Marked(k, mark)) == next && pattern[k..][1..] == pattern[k + 1..];
      assert progress[0] in progress;
      ClockPlays(pattern, k + 1, Draw(credit, rate, BucketFold(next)).0, pattern[k], progress[1..], rate);
    }
  }

  lemma {:induction false} HighMisses(n: nat, credit: Credit)
    requires credit + BASE_LOG_DROP_BASIS_POINTS * n <= MAX_LUCK_CREDIT
    ensures Plays(credit, BASE_LOG_DROP_BASIS_POINTS, seq(n, _ => true)) == seq(n, _ => false)
  {
    if n > 0 {
      assert seq(n, _ => true)[1..] == seq(n - 1, _ => true);
      HighMisses(n - 1, credit + BASE_LOG_DROP_BASIS_POINTS);
      assert [false] + seq(n - 1, _ => false) == seq(n, _ => false);
    }
  }

  /** Experience at which every level bonus is reached. */
  const TOP_XP := 4_054

  lemma TopRate(xp: nat)
    ensures xp >= TOP_XP ==> LogDropBasisPoints(xp, Iron) == 3_800
    ensures xp < IRON_ORE_UNLOCK_XP_BALANCE ==> LogDropBasisPoints(xp, NoAxe) == BASE_LOG_DROP_BASIS_POINTS
  {
    DropRateTable(xp, Iron);
    DropRateTable(xp, NoAxe);
  }

  /** From the initial credit, one reward and then ten misses. */
  lemma ColdStreak()
    ensures Plays(INITIAL_LUCK_CREDIT, 2_000, [false] + seq(10, _ => true)) == [true] + seq(10, _ => false)
  {
    var misses := seq(10, _ => true);
    HighMisses(10, 0);
    assert ([false] + misses)[1..] == misses;
    assert Plays(INITIAL_LUCK_CREDIT, 2_000, [false] + misses) == [true] + Plays(0, 2_000, misses);
  }

  lemma HotStreak()
    ensures Plays(8_000, 3_800, [true, true, true, false, false, false]) == [false, false, false, true, true, true]
  {
    assert Plays(800, 3_800, []) == [];
    assert Plays(7_000, 3_800, [false]) == [true];
    assert Plays(13_200, 3_800, [false, false]) == [true] + Plays(7_000, 3_800, [false]);
    assert Plays(19_400, 3_800, [false, false, false]) == [true] + Plays(13_200, 3_800, [false, false]);
    assert Plays(15_600, 3_800, [true, false, false, false]) == [false] + Plays(19_400, 3_800, [false, false, false]);
    assert Plays(11_800, 3_800, [true, true, false, false, false]) == [false] + Plays(15_600, 3_800, [true, false, false, false]);
  }
}
