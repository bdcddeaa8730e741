# Woodland verification

Woodland is a game played in recursive covenants. A tree and a player are unspent outputs; chopping, crafting,
withdrawing, renewing and regrowing spend them and recreate them under opcode programs that Rust builders emit.
Host code mirrors those programs, builds the transactions, decodes what comes back and settles renewals in
batches. This project models that logic in Dafny and proves what it is for. `dafny verify dfyconfig.toml` checks
all of it.

## What is modelled

**Covenants against the host** (`ScriptNumber`, `ScriptMachine`, `PlayerRules`, `CovenantFragments`, `PlayerCovenant`,
`ChopCovenant`, `CraftCovenant`, `StateCovenants`, `CovenantPaths`, `PathMeanings`, `PlayerTemplate`). An interpreter runs the opcode
lists the builders emit over byte strings with sign-magnitude numbers, a main stack, an altstack and nested branches.
Every builder is a function from the code that follows to the code with its opcodes in front, and every result has one
form: running the emitted code from any state equals running what follows from a state given in host terms, or
halting. The stacks below are arbitrary, so each statement also says the program is balanced. The host rules
(`advance`, `material_drop`, the recipes, the codecs) are written independently and met at the end: the luck program
pushes `advance`'s reward bit exactly when the output packets encode `advance`'s next roll and credit, the material
program pushes `material_drop`'s code, the recipe program accepts exactly the one-tier upgrades of `next_recipe`.
`CovenantPaths` puts each of them behind the programs that recreate its lock and value, carry packets over byte for
byte and seed a newcomer's luck, so that the modelled part of each recursive path has one acceptance condition; the
chop path's is what `ChopTransition::validate` checks and the few conditions that function does not look at.
`PathMeanings` writes each condition out over the transaction's own fields, down to packet numbers and bytes, and
`PlayerRules` does the same for the odds: how many of the 10,000 buckets pay, and which give a material.
`PlayerTemplate` runs the program that rebuilds the six-leaf Taproot tree of BIP341 and shows that any other tree with
that root, or another owner accepted for one input, exhibits a hash collision or a second tweak of one point.

**The game as a state machine** (`Transactions`, `Forest`, `Chains`, `Regrowth`, `LuckBounds`, `Lineages`). Host
builders and covenants meet in both directions: what a builder makes is accepted, and what is accepted is what the
builder would make. Over every run of activations, chops, crafts, withdrawals, renewals and regrowths by any number of
players and trees, the supply of each asset is conserved, every tree stays canonical, every axe stays backed by
experience, and actions are only refused for the reason a player sees. `Chains` shows that the covenants alone enforce
this: any chain of accepted transactions, each spending what the outputs before it show or a state made outside the
game in whatever way, is one of those runs. Regrowth sets health to ten without looking at how much LOG is left; the
invariant that makes this safe is that LOG and health agree modulo ten, and `Regrowth` drives any tree without it past
its LOG. `LuckBounds` and `Lineages` prove the promises of the repository's own README about luck, for every player of
every chain, and exactly which states can enter.

**Settlement batches** (`BatchGraph`, `BatchTrees`, `BatchForfeits`, `BatchJoin`, `SseFraming`). The stream is
untrusted: any list of events, with any call or library step failing at any point. The graph validator is proved
against a declarative meaning (one tree, rooted at the named commitment output, conserving its value), and the join
against a fixed script of five messages, each of which is justified when it leaves. The framer is proved equal to
framing the whole text at once, however the transport cuts it, inside a character or a delimiter included.

**Packets and fees** (`PacketGrammar`, `AssetPacket`, `RenewalFee`). The strict decoder accepts a payload exactly when
it is the encoding of a well-formed packet; the encoder of renewal leaves is written separately and the two are joined
by a round trip. The fee search is proved sufficient always and least for monotone programs.

**Server, recovery, deployment** (`LocationIndex`, `Registry`, `Recovery`, `DeploymentPlan`). A chunked map index
agrees with a plain map; optimistic verification races with consent in every interleaving; a journaled transaction
survives any sequence of crashes, lost responses and foreign transactions, against a ledger whose rules are an
assumption of the model (`Recovery.Ledger`); a bootstrap plan conserves every asset, never overflows and passes the
checks of the executor.

## Where the code falls short of the obvious claim

Each of these is stated with its exact condition.

- A player is bound to the seeded roll, the initial credit and no axe exactly on a first spend, when its marker was
  issued by the very transaction the state is spent from. A marker routed through another output lets every roll and
  every credit in, but in no way an axe (`Lineages.EntryIsExact`). Whatever it starts with, every swing of every chain
  keeps the luck promises (`Lineages.EveryChainKeepsPromises`). States whose packets do not decode are let in as well,
  but never play (`Chains.StraysNeverPlay`).
- Health stays covered by LOG along every run just when the two agree modulo ten
  (`Regrowth.CoverageNeedsCongruence`); no check in the code enforces the agreement, only reachability does. A funded
  stump with fewer than ten LOG would be regrown past its LOG (`Regrowth.EveryFundedStumpRegrows`).
- `equal_asset_sets` is equality up to order for every right side just when its left side has no repeats
  (`AssetPacket.EqualSetsAreSame`, `AssetPacket.RepeatsMislead`). At its call the left side is the indexer's record,
  whose repeats `parse_indexer_vtxo` refuses, so the check of a record is exact (`AssetPacket.ValidateRecord`).
- Whether a frame is refused as too long can depend on how the transport cuts it (`SseFraming.CutCanDecide`). Some
  split passes just when each frame fits the limit by itself (`SseFraming.FitIsExact`), every split just when it fits
  together with all but the last byte of its delimiter (`SseFraming.RoomIsExact`).
- The fee estimate is made on the outputs the funding then builds just when the intent has its two original
  outputs (`RenewalFee.TriedIsBuilt`); sponsoring an intent twice would price other outputs.
- The withdrawal covenant accepts a withdrawal of nothing, which the host refuses
  (`Regrowth.ZeroWithdrawalIsAccepted`); it is the only accepted transaction that is not an allowed action, and it
  changes nothing (`Chains.AcceptedTransactionsAreSteps`).
- A merged forfeit carries exactly the signatures it needs, over every answer, save on a state forfeit whose owner and
  emulator are one key that can sign, where an answer can add a signature of neither role
  (`BatchForfeits.OnlyWantedSignatures`). The contract builders refuse such a leaf (src/player.rs:728-737,
  src/tree.rs:433-448), so no contract they build brings one to the merge (`BatchForfeits.BuildersExcludeSharing`).

## Assumptions

SHA-256 is any function to 32 bytes; where injectivity would be needed a collision is produced instead. Signature
checks, the output-key tweak, key aggregation and fee programs are function parameters. Transaction identifiers
are opaque numbers carried by the transactions. What the network, the clock and the indexer say arrives as
parameters: event lists, call outcomes, faults. The standards meant are BIP341 ("Script validation rules") for
Taproot, sections 3 and 4 of RFC 3629 for UTF-8 and section 7.6 of DWARF 5 for unsigned LEB128.

## Model

| member | source | states |
|---|---|---|
| `ScriptNumber.MinimalIsEncoding` | src/player.rs:1731-1754 | A byte string is a minimal script number exactly when it is the encoding of the number it decodes to, so the numbers the programs compare determine their bytes |
| `ScriptNumber.FixedWidthRoundTrip` | src/player.rs:1937-1949 | Decoding a packet and re-encoding it at its own width gives it back exactly when it is not a negative zero; this is the test the credit, axe and health programs rely on |
| `ScriptNumber.UnsignedDecode` | src/player.rs:1731-1754 | With a zero byte appended, a string decodes as its unsigned little-endian value whatever its top bit |
| `PlayerRules.RecipeRequirements` | src/player.rs:190-247 | A recipe raises the tier by one, needs exactly the experience its tier stands for, and exists for every tier but iron; level ten is the experience at which iron ore unlocks |
| `PlayerRules.RecipeTable` | src/player.rs:210-247 | The three recipes, their ingredients and the experience balances 1, 16 and 97 behind their levels |
| `PlayerRules.ComputeLogDropBasisPoints` | src/player.rs:250-263 | The loop over level thresholds with the level cap and the axe bonus gives 2,000 plus 200 per level reached plus the bonus; the cap never binds |
| `PlayerRules.LogDropBasisPoints` | src/player.rs:250-263 | The drop rate stays between 2,000 and 3,800 basis points |
| `PlayerRules.BucketIsLittleEndianRemainder` | src/player.rs:296-315 | The Horner fold of a roll or material hash is its whole little-endian value modulo 10,000 |
| `PlayerRules.AdvanceByBytes` | src/player.rs:421-443 | A swing hashes the roll once, raises credit by the rate and lowers it by 10,000 for a reward, and rewards exactly above 20,000, or from 10,000 on when the little-endian value of the next roll modulo 10,000 is below the rate |
| `PlayerRules.DrawOdds` | src/player.rs:421-443 | Of the 10,000 buckets a draw pays on all when credit and rate exceed 20,000, on none when they stay below 10,000, and otherwise on exactly as many as the rate, the lowest ones |
| `PlayerRules.DropRateTable` | README.md:63-67 | The rate is 20%, two points more from each of 47, 179, 535, 1,489 and 4,054 experience on, plus 2%, 5% or 8% for the axe |
| `PlayerRules.MaterialOdds` | src/player.rs:331-349 | For every experience balance exactly 1,000 of the 10,000 buckets give STONE; IRON ORE has exactly the buckets 0 to 199 from 47 on and none below, and the STONE buckets are the ones right after |
| `PlayerRules.MaterialByBytes` | src/player.rs:331-349 | Only a reward brings material, and which one is fixed by the little-endian value of the hash of the tagged next roll modulo 10,000 |
| `PlayerRules.CreditPacket` | src/player.rs:352-384 | A credit packet decodes to a credit exactly when it is that credit's encoding: nine bytes, no negative zero, at most 20,000 |
| `PlayerRules.AxePacket` | src/player.rs:157-170 | An axe packet decodes to a tier exactly when it is that tier's single byte |
| `PlayerRules.ScriptReadsAxe` | src/player.rs:1756-1785 | The checks the axe program makes on a packet accept exactly what the host decodes, with the same tier |
| `PlayerRules.ScriptReadsCredit` | src/player.rs:1929-1958 | The checks the credit program makes on a packet accept exactly what the host decodes, with the same value |
| `CovenantFragments.NumberPacketRuns` | src/tree.rs:159-190 | Reading a numeric packet of an input or the output pushes its value when it is canonical and below the limit, and halts otherwise |
| `CovenantFragments.LookupRuns` | src/tree.rs:1321-1345 | An asset lookup pushes the amount and whether it was found |
| `CovenantFragments.OptionalLookupRuns` | src/tree.rs:1349-1392 | An optional lookup behaves as a lookup whether or not the asset has a group, with both branches balanced |
| `CovenantFragments.OptionalLookupSkips` | src/tree.rs:1349-1392 | Inside a branch not taken the whole lookup, with its own nested branches, has no effect |
| `CovenantFragments.FindGroupRuns` | src/tree.rs:1394-1401 | Searching an asset's group pushes its position and whether it exists |
| `CovenantFragments.SumCheckRuns` | src/tree.rs:676-681 | The check that a balance fell by the reward bit kept on the altstack passes exactly then and keeps the bit |
| `PlayerCovenant.RollRuns` | src/player.rs:1731-1754 | The roll program pushes the bucket of the next roll exactly when the output carries the hash of the input's roll |
| `PlayerCovenant.AxeBonusRuns` | src/player.rs:1813-1841 | The nested branches leave the bonus of the equipped axe |
| `PlayerCovenant.DropRateRuns` | src/player.rs:1843-1870 | The rate program, whose cap is never checked, leaves the host's capped drop rate |
| `PlayerCovenant.AwardRuns` | src/player.rs:2017-2046 | The nested award branches leave the host's success bit and the credit after it |
| `PlayerCovenant.SameAxeRuns` | src/player.rs:2010-2011 | The luck program demands a canonical axe on the input and the same axe on the output |
| `PlayerCovenant.AdvancedLuckRefinesHost` | src/player.rs:2005-2048 | For every roll, credit, axe and experience balance: the whole luck program runs on with exactly `advance`'s reward bit on the stack when the output packets encode `advance`'s next roll and credit and the unchanged axe, and halts otherwise |
| `PlayerCovenant.MaterialRefinesHost` | src/player.rs:1874-1927 | The material program leaves the code of `material_drop` for the next roll and the experience held, for every next roll |
| `PlayerCovenant.MaterialRunsByBytes` | src/player.rs:1874-1927 | In bytes: the material program leaves 2 for the buckets 0 to 199 and 1 for 200 to 1,199 at 47 experience or more, 1 for 0 to 999 below it, and 0 otherwise |
| `ChopCovenant.HealthRuns` | src/tree.rs:192-199 | Reading a health packet pushes a canonical value or halts |
| `ChopCovenant.TransferRuns` | src/tree.rs:788-812 | The asset-delta program passes exactly when the tree loses and the player gains the reward bit of one asset |
| `ChopCovenant.CountsRun` | src/tree.rs:1203-1237 | The count program passes exactly when the player side holds its marker and nothing beside the four game assets |
| `ChopCovenant.RewardedRuns` | src/tree.rs:671-784 | From the kept reward bit on, the tree covenant passes exactly when health, marker, LOG, experience and materials all move as that bit and the material roll say |
| `ChopCovenant.ChopRefinesHost` | src/tree.rs:665-784 | The tree covenant's luck, health and asset part accepts a transaction exactly when the luck advance is accepted and every balance moves by its reward |
| `CraftCovenant.BurnRuns` | src/player.rs:971-987 | The burn program passes exactly when the asset falls by the stated amount from the player input to the player output |
| `CraftCovenant.RequireXpRuns` | src/player.rs:989-1001 | The experience program passes exactly at or above the inclusive threshold |
| `CraftCovenant.UpgradeRuns` | src/player.rs:925-935 | The tier check passes exactly when the output axe is one tier above and a recipe for it exists |
| `CraftCovenant.BranchesRun` | src/player.rs:937-966 | On the nested branches exactly the recipe of the equipped axe is charged |
| `CraftCovenant.RecipeRefinesHost` | src/player.rs:923-966 | The recipe part of the craft covenant accepts exactly the one-tier upgrades of `next_recipe`, at their experience, with exact burns and experience unchanged, and leaves the stacks as they were |
| `CraftCovenant.PrepareCraft` | src/chop.rs:440-535 | The builder succeeds exactly when the next recipe is affordable, tells the highest tier, missing experience and the first missing ingredient apart, and builds that one transaction |
| `CraftCovenant.BuiltCraftAccepted` | src/chop.rs:440-535 | Every transaction the builder makes satisfies the recipe program |
| `CraftCovenant.AcceptedCraftIsBuildable` | src/player.rs:923-966 | Every transaction the recipe program accepts is one the builder could make, with the same balances and axe |
| `StateCovenants.AllUnchangedRuns` | src/player.rs:1047-1062 | The renewal covenant's lookups pass exactly when every game asset stays as it was |
| `StateCovenants.WithdrawRuns` | src/player.rs:1176-1212 | The withdrawal covenant passes exactly when LOG is split between the two outputs and experience, STONE and IRON ORE stay |
| `StateCovenants.ProgressionRuns` | src/player.rs:1790-1811 | The axe gate passes exactly when the experience held backs the equipped axe |
| `CovenantPaths.SamePacketRuns` | src/tree.rs:980-996 | Carrying a packet over passes exactly when the input has it and the output repeats it byte for byte |
| `CovenantPaths.SameStateSamePackets` | src/player.rs:1133-1147 | For a state that decodes, the three packets are repeated byte for byte exactly when the output decodes to the same roll, credit and axe |
| `CovenantPaths.SameScriptRuns` | src/tree.rs:1044-1059 | The script check passes exactly when input and output carry one and the same Taproot program |
| `CovenantPaths.RelockRuns` | src/player.rs:862-874 | A state is recreated exactly under its own lock and at the fixed value on both sides |
| `CovenantPaths.SeedRuns` | src/player.rs:1962-2000 | The seed program, with its branch for first spends, passes exactly when experience backs the axe, the origin is readable, and a first spend carries the roll hashed from its own program, the initial credit and no axe |
| `CovenantPaths.RenewalPathRuns` | src/player.rs:1006-1064 | The modelled part of the player renewal path accepts exactly when lock, value, all three packets and all four balances stay and the seed check passes |
| `CovenantPaths.WithdrawPathRuns` | src/player.rs:1076-1215 | The modelled part of the withdrawal path accepts exactly when lock, value and packets stay, the destination is worth the funding input, LOG is split between the outputs and the rest of the inventory stays |
| `CovenantPaths.CraftPathRuns` | src/player.rs:831-969 | The modelled part of the craft path accepts exactly when lock, value and luck packets stay and the recipe program accepts |
| `CovenantPaths.ChopPathRuns` | src/tree.rs:627-784 | The modelled part of the chop path accepts exactly when both locks and values and the tree's place stay, the player is seeded and the swing is accepted |
| `CovenantPaths.RegrowthPathRuns` | src/tree.rs:816-933 | The modelled part of the regrowth path accepts exactly for a stump with LOG whose lock, value, place, marker and reserves stay and whose new health is ten |
| `CovenantPaths.MaintenancePathRuns` | src/tree.rs:841-933 | The modelled part of the maintenance path accepts exactly when lock, value, place, marker, reserves and health stay |
| `CovenantPaths.ChopPathMatchesHostCheck` | src/tree.rs:239-365 | On every state the host can represent, the chop path accepts exactly the transactions whose observed transition, place and values included, passes the host's `validate` for some success bit and that keep both locks, spend a seeded player, leave STONE and IRON ORE in the tree before the swing and hold only game assets on the player side |
| `PathMeanings.StatePackets` | src/player.rs:1423-1437 | A transaction carries a player state exactly when packet 5 is its roll, packet 8 its credit in nine bytes up to 20,000 and packet 9 its tier |
| `PathMeanings.HealthPacket` | src/tree.rs:143-165 | A health below two to the 64 is carried exactly by a packet 7 of its eight bytes, low byte first, and a zero |
| `PathMeanings.RelockMeans` | src/player.rs:862-874 | A relocked state has one program and the very same number of sats on both sides |
| `PathMeanings.SeedMeans` | src/player.rs:1962-2000 | A seeded state holds the experience its axe needs (1, 16 or 97), and when its marker was issued by the transaction it is spent from, has the roll hashed from the tagged program, credit 8,000 and no axe |
| `PathMeanings.RenewalPathMeans` | src/player.rs:1006-1064 | What the renewal path demands, over the transaction: lock, dust, packets 5, 8 and 9 and the four amounts are those of input one |
| `PathMeanings.WithdrawPathMeans` | src/player.rs:1076-1215 | What the withdrawal path demands: everything stays but LOG, which is there and splits between outputs zero and one |
| `PathMeanings.CraftPathMeans` | src/player.rs:831-969 | What the craft path demands for each equipped axe: its recipe in numbers is burned, experience suffices and stays, and the next axe is shown; iron has no way on |
| `PathMeanings.TreePathsMean` | src/tree.rs:816-933 | What regrowth and maintenance demand: the tree is carried over, and health goes from 0 to 10 on a tree with LOG, or stays |
| `PathMeanings.ChopPathMeans` | src/tree.rs:627-784 | What the chop path demands: both locks and values, place and marker stay, the player advances by one swing, health, LOG and XP move by the reward and the materials by its roll |
| `PlayerTemplate.ReversedIsBigEndian` | src/player_template.rs:168-174 | The number made of a reversed hash is its big-endian value |
| `PlayerTemplate.NumberOrderIsLexicographic` | src/player_template.rs:152-166 | Comparing hashes as those numbers is comparing them lexicographically |
| `PlayerTemplate.SortedBranchRuns` | src/player_template.rs:152-166 | The branch program leaves the tagged TapBranch hash of the two children in lexicographic order |
| `PlayerTemplate.OwnerLeafRuns` | src/player_template.rs:115-142 | The leaf program leaves the tagged TapLeaf hash of the owner's multisig script |
| `PlayerTemplate.JoinRuns` | src/player_template.rs:85-89 | The two rotations and two branch programs turn subtrees A, B, C into the root of (C, (A, B)) |
| `PlayerTemplate.TreeRuns` | src/player_template.rs:67-89 | The whole tree part leaves the root of the canonical six-leaf tree |
| `PlayerTemplate.CanonicalIsFifo` | src/player_template.rs:67-89 | The canonical tree is what joining the first two of a queue of subtrees and putting them at its back makes of the six leaves, in the order a wallet lists them |
| `PlayerTemplate.HashesAreTagged` | src/player_template.rs:115-182 | Leaf, branch and tweak hashes are those of BIP341: tags hashed once and put twice in front, version 192 and compact size before a script, children in byte order |
| `PlayerTemplate.TemplateAuthenticates` | src/player_template.rs:25-112 | For every owner and prefix witness: the program passes exactly when the prefix is 2 or 3, the owner is a 32-byte key apart from the fixed signers, and the input's program is the fixed internal key tweaked by the canonical tree's root |
| `PlayerTemplate.RootDeterminesTree` | src/player_template.rs:152-166 | Two Taproot trees with one root are the same up to swapping children, or two of their hashed strings collide |
| `PlayerTemplate.OnlyCanonicalLeaves` | src/player_template.rs:25-112 | A tree whose root passes the program has exactly the six leaves, with the owner in four of them, the operator first in the watchtower leaf, and the exit; or it exhibits a collision |
| `PlayerTemplate.OneOwner` | src/player_template.rs:25-112 | Two owners the program accepts for one input are equal, or two of the strings hashed for them collide, or one point has two tweaks |
| `LuckBounds.CreditBalance` | src/player.rs:421-443 | Over any swings at any playable rates: the rates earned equal the change in credit plus 10,000 per reward |
| `LuckBounds.RewardsTrackExpectation` | README.md:68-70 | Realized rewards stay within two LOG of accumulated expected value |
| `LuckBounds.AtMostTenMisses` | README.md:71-72 | No run of swings, wherever it starts, misses more than ten times in a row |
| `LuckBounds.AtMostThreeSuccesses` | README.md:70-71 | No run of swings succeeds more than three times in a row, nor more than twice while rates stay at or below one third |
| `LuckBounds.LineageFollowsSwings` | src/player.rs:421-443 | A player lineage driven by the hash chain, with experience and axe changing along the way, is one of those runs |
| `Transactions.ChopAmounts` | src/chop.rs:897-936 | The groups the chop builder writes show a covenant exactly the balances before and after, and nothing else on the player side |
| `Transactions.BuiltChopPathAccepted` | src/chop.rs:801-936 | Every chop the host builds from a state its checks let through is accepted by the modelled part of the chop path |
| `Transactions.AcceptedChopIsHostChop` | src/chop.rs:801-863 | Every chop the covenant accepts has exactly the result the host computes from its inputs |
| `Transactions.BuiltWithdrawPathAccepted` | src/chop.rs:259-352 | Every withdrawal the host builds is accepted by the modelled part of the withdrawal path and pays exactly its amount |
| `Transactions.AcceptedWithdrawalMovesLog` | src/player.rs:1176-1212 | An accepted withdrawal takes from LOG what the recipient gets and leaves the rest of the inventory alone |
| `Transactions.BuiltCraftPathAccepted` | src/chop.rs:440-535 | Every craft the host builds is accepted by the modelled part of the craft path |
| `Transactions.BuiltRenewalPathAccepted` | src/renewal.rs:898-912 | Every player renewal the host builds is accepted by the modelled part of the renewal path |
| `Transactions.SpendableIsSeeded` | src/player.rs:1962-2000 | A state passes the seed program exactly when it is either a newcomer's on its first spend or any later state, with the axe earned |
| `Transactions.RenewalKeepsEverything` | src/renewal.rs:898-912 | Self-sending groups keep the marker and every balance |
| `Transactions.BuiltTreePathAccepted` | src/renewal.rs:149-170 | Every tree renewal the host prepares is accepted by the modelled part of its path: as regrowth when it picks regrowth, as maintenance otherwise |
| `Transactions.RenewedTreesAreCanonical` | src/renewal.rs:149-176 | A record is renewed exactly with one marker, no other asset, the tree value, LOG equal to XP and health within LOG; then a stump with experience left regrows to ten and any other tree keeps its health |
| `Transactions.AcceptedTreeRenewal` | src/tree.rs:816-852 | Accepted renewals keep the reserves and change health only from zero to ten, on a tree that still has LOG |
| `Forest.StepKeeps` | src/chop.rs:825-936 | Every action on any safe world leaves it safe |
| `Forest.EveryRunIsSafe` | README.md:24-45 | From deployment, whatever is played: tree reserves, balances, burns and the LOG outside add up to 50,000 per tree of each of the four assets; LOG equals experience in every tree, health is at most ten and LOG and agrees with it modulo ten, materials cover LOG; the LOG each player holds, withdrew and burned is what it brought plus its experience, which is never burned and backs the axe |
| `Forest.OnlyLogIsOutside` | PLAYER.md:106-121 | Where no asset is created, a state made outside the game holds nothing but LOG, and no more than was withdrawn and not brought back |
| `Forest.ReachableTreesAreCanonical` | src/client.rs:310-328 | No client check and no renewal check rejects a tree the game can reach |
| `Forest.RenewalFollowsGame` | src/renewal.rs:149-202 | For every tree of every reached world the renewal builder picks regrowth exactly when the game allows it, for a stump with LOG left, and maintenance otherwise; the health and reserves it carries are those of the world after that action |
| `Forest.WithdrawalFollowsGame` | src/chop.rs:259-300 | The withdrawal builder succeeds exactly when the withdrawal action does, for a positive amount within the LOG held, and refuses for the same reason |
| `Forest.OnlyHonestRejections` | src/chop.rs:259-535 | In every reachable world: a chop is refused exactly on a stump, a regrowth exactly off a stump with LOG, a craft exactly for want of its ingredients or experience or after the last tier, a withdrawal exactly for an amount not held, a newcomer exactly for LOG that is not outside, a renewal never, and the axe gate never fires |
| `Forest.SpentTreesAreFinal` | src/tree.rs:816-837 | A tree without LOG never changes again |
| `Chains.AcceptedTransactionsAreSteps` | src/tree.rs:627-784 | Whatever the modelled part of a covenant path accepts on inputs that show a world has outputs that show, packets and balances alike, exactly the world after that action, under the same locks; the action is allowed unless it withdraws nothing |
| `Chains.EntrantIsNewcomer` | src/player.rs:1787-1811 | A state without experience that any player path accepts has no axe, whatever its roll and credit |
| `Chains.FirstSpendIsActivated` | src/player.rs:1960-2000 | On a first spend an accepted state is the activated one of its own program |
| `Chains.StraysNeverPlay` | src/player.rs:1105-1147 | A state without experience whose packets do not decode can only be renewed or give back the LOG it was made with, and never comes to decode |
| `Chains.ChainsAreRuns` | src/player.rs:831-1215 | The outputs of any chain of accepted transactions, each spending what the ones before it created or a state made outside the game in whatever way, show the world its actions lead to |
| `Chains.EveryChainIsSafe` | README.md:24-45 | From deployment, in what the outputs of any such chain show: supply is conserved, every tree is canonical and every account balanced |
| `Lineages.EntryIsExact` | README.md:170-176 | In every world: a first spend brings in exactly the activated state of its program, and off a first spend an accepted transaction exists for every roll and every credit exactly without an axe |
| `Lineages.RunFollowsLineage` | src/player.rs:421-443 | Along every run the swings that raise a player's experience, and its roll and credit after it, are those of `advance` iterated along its hash chain |
| `Lineages.EveryRunKeepsPromises` | README.md:68-72 | Whatever luck a player came in with: its rewards stay within two LOG of what its rates earned, and no window of its swings misses more than ten times or pays more than three, or two at rates up to one third |
| `Lineages.EveryChainKeepsPromises` | README.md:170-176 | The same for every player of every chain of accepted transactions, whose outputs show that run |
| `Lineages.StreakBoundsAreReached` | README.md:70-72 | Under some hash a player just activated on a fresh map is paid once and then misses ten times in a row; and in a safe world a player at the top rate is paid three times in a row, its experience rising with it |
| `Regrowth.ForcedReward` | src/player.rs:421-443 | Whatever the hash, some number of swings at a live tree pays its player |
| `Regrowth.CoverageNeedsCongruence` | src/renewal.rs:149-170 | For every stocked tree: health stays within LOG along every run of the game exactly when the two agree modulo ten at its start |
| `Regrowth.EveryFundedStumpRegrows` | src/tree.rs:816-837 | For every funded stump there is a transaction the regrowth path accepts that shows it at health ten, past its LOG if it holds fewer than ten |
| `Regrowth.ZeroWithdrawalIsAccepted` | src/player.rs:1076-1215 | For every player with LOG and an earned axe there is a transaction withdrawing nothing that the withdrawal path accepts |
| `BatchGraph.SumOutputs` | src/batch.rs:1131-1136 | The checked sum is the total when it fits 64 bits and an overflow error otherwise |
| `BatchGraph.CheckLink` | src/batch.rs:1044-1072 | One declared child is accepted exactly when its output exists and, if received, it is new, spends that output and passes its value on |
| `BatchGraph.CheckLinks` | src/batch.rs:1040-1074 | The second pass accepts exactly the graphs whose links keep value and whose nodes have at most one parent, and collects the nodes that have one |
| `BatchGraph.Walk` | src/batch.rs:1084-1105 | The traversal visits each node at most once, terminates, and succeeds exactly when the root reaches every node |
| `BatchGraph.ValidateGraph` | src/batch.rs:993-1129 | A received list is accepted exactly when it is one canonical tree rooted at the named commitment output that conserves its value; the revisiting error never fires |
| `BatchGraph.UniqueDepth` | src/batch.rs:1084-1105 | Every node of an accepted tree has one depth, so none is its own ancestor |
| `BatchGraph.OneParentOutput` | src/batch.rs:1040-1074 | Every accepted node but the root spends exactly one received parent output, in full |
| `BatchGraph.UnspentValueIsCommitted` | src/batch.rs:1040-1126 | The outputs no received child spends are worth exactly the commitment output, with sibling subtrees omitted or not |
| `BatchTrees.DeclaredCosigners` | src/batch.rs:1259-1282 | The declared cosigners are read exactly when all parse, none repeats and there is one |
| `BatchTrees.CheckCosigners` | src/batch.rs:1171-1207 | A node passes exactly when it declares us and one signer from outside the batch, the known one if any, and spends an output locked to just those |
| `BatchTrees.ParentsAreKnown` | src/batch.rs:1138-1158 | In an accepted graph the spent output of every node can be looked up, unless a node repeats the commitment's identifier |
| `BatchTrees.ValidateVtxoTree` | src/batch.rs:1160-1227 | The tree is accepted exactly when it is a value tree, one operator cosigns every node with us, every output a node spends being locked to just its declared keys, and exactly one leaf is the renewed outputs byte for byte; that leaf is returned |
| `BatchTrees.EdgeIsLocked` | src/batch.rs:1138-1207 | In an accepted tree the very output a received child spends pays to the tree script of the child's declared keys, ours among them; under the commitment's own identifier, the commitment output of that position does |
| `BatchTrees.RootIsLocked` | src/batch.rs:1138-1207 | Output zero of the commitment pays to the tree script of the root's declared keys, ours among them |
| `BatchTrees.LeafIsGuarded` | src/batch.rs:1160-1227 | From the commitment to the leaf there is a chain of received nodes; the commitment output and every output on the chain pay to the tree script of the next node's declared keys, ours among them, and the commitment pays for the whole leaf |
| `BatchTrees.ValidateConnectorTree` | src/batch.rs:1326-1364 | The connector tree is accepted exactly when it is a value tree of spendable Taproot outputs whose leaves are one dust output each, as many as inputs |
| `BatchTrees.ConnectorsAreFunded` | src/batch.rs:1326-1364 | The commitment pays at least one dust per input, and exactly that and the anchors just when no branch of the connector tree was withheld |
| `BatchForfeits.CombineForfeits` | src/batch.rs:1393-1485 | Merging succeeds exactly when answers are distinct and all claimed, one forfeit spends the state, none was changed, and each carries as many signatures as it needs with the required ones valid; the result is the merge |
| `BatchForfeits.OnlyWantedSignatures` | src/batch.rs:1443-1475 | Over every answer, what completes carries exactly the emulator's signature if it spends the state and the owner's if its leaf names the owner, all valid, exactly unless both roles share one key on it that can sign and our own part leaves room |
| `BatchForfeits.SharedKeyMiscounts` | src/batch.rs:1472-1475 | Whatever completes a forfeit on which both roles share one key carries a signature of neither role |
| `BatchForfeits.BuildersExcludeSharing` | src/player.rs:728-737 | On a leaf whose emulator key is not among its plain signers, as the builders demand, every completed forfeit is exact |
| `BatchJoin.BatchProgress.BeginBatch` | src/batch.rs:249-256 | A batch is taken up only from the start, and only once |
| `BatchJoin.BatchProgress.MarkSignatures` | src/batch.rs:285-291 | Signatures are marked only while signing the same batch, and only once |
| `BatchJoin.BatchProgress.Finalize` | src/batch.rs:308-318 | A finalization counts only after submission for the same batch; a foreign commitment is then an error |
| `BatchJoin.OnSigningStarted` | src/batch.rs:706-746 | Signing starts exactly when the batch names us a cosigner, the received chunks are a valid tree for the announced commitment and the nonces were delivered; otherwise an announcement of our batch ends the join with the error of the first check it fails |
| `BatchJoin.GatherNonces` | src/batch.rs:754-791 | A node's nonces are refused when unknown or repeated, and the set is complete exactly when no node is missing |
| `BatchJoin.OnTreeNonces` | src/batch.rs:747-804 | Nonces of unknown or repeated nodes end the join; partial signatures go out exactly with the nonces of the last missing node |
| `BatchJoin.OnFinalization` | src/batch.rs:806-875 | Forfeits leave exactly when the commitment is the one signed for, every node is signed in its chunk or since, the connectors are valid for it and the forfeits could be made; the owner's forfeits are submitted exactly when the answers merge, and as that merge; otherwise the first failing check names the error |
| `BatchJoin.JoinRegistered` | src/batch.rs:552-897 | For every stream: the messages sent are a prefix of one five-message script of one batch, each justified when sent, with the nonces and the tree signatures the stream delivered; the join runs to the first event that fails, with exactly its error, or that settles the submitted batch, and then names the script's commitment and validated leaf; a closed stream is reported only after the last event, with no awaited event missed; the guard errors never fire |
| `BatchJoin.DeliveredIsLast` | src/batch.rs:657-704 | The signature held for a received node is the last one the batch delivered for it since signing started, or the one its chunk carried if none was; connector chunks change none |
| `BatchJoin.UnsignedExactly` | src/batch.rs:806-822 | A join ends for want of signatures exactly when the commitment signed for is finalized while some received node has no valid signature in that sense |
| `BatchJoin.GivesUpBeforeSigning` | src/batch.rs:632-746 | Before signing a join gives up exactly on a batch that names our intent and does not outlive the input, on a signing that leaves us out, and on chunks that are no valid tree for the announced commitment |
| `BatchJoin.RefusesChunks` | src/batch.rs:657-690 | Chunks end a join exactly when a tree chunk comes after signing began or more than 512 of a kind are sent |
| `BatchJoin.RefusesNonces` | src/batch.rs:692-791 | While signing, exactly nonces or signatures for a node not received, or nonces for one heard before, end a join |
| `BatchJoin.RefusesFinalization` | src/batch.rs:806-875 | A finalization fails exactly on another commitment, on connectors that do not hang off it, or on answers that do not complete the forfeits, in this order and after the signatures |
| `BatchJoin.RefusesSettlement` | src/batch.rs:876-897 | Otherwise only a foreign commitment after submission and the failure of the joined batch end a join |
| `BatchJoin.ReleaseIsJustified` | src/batch.rs:806-875 | A released forfeit follows a validated, fully nonced and fully signed tree of one commitment, whose nodes are the received ones; signatures and forfeits each leave at most once |
| `BatchJoin.ReleasedTreeIsSigned` | src/batch.rs:806-850 | Once a forfeit left, every received node was given its nonces, ours among them, and the last signature delivered for it, or else the one of its chunk, is valid for the signed commitment |
| `BatchJoin.ReleasedForfeitsAreFunded` | src/batch.rs:806-875 | When a forfeit leaves, the one signed commitment pays for the renewed leaf through a path of nodes each guarded by our key and each signed, and funds one connector per input |
| `BatchJoin.Register` | src/batch.rs:376-405 | Registration succeeds at once, or after one conflicting intent was deleted; each error and the number of deletions are fixed by the replies |
| `BatchJoin.JoinBatch` | src/batch.rs:411-452 | The join runs under the registered intent exactly when registration succeeds; after a failed join the intent is deleted exactly when no forfeit was released |
| `SseFraming.ScanResumes` | src/batch.rs:597-619 | Keeping the incomplete tail of a chunk and reading on equals reading the whole text |
| `SseFraming.FirstCharacterIsExact` | src/batch.rs:604-611 | A character is whole exactly when the encoding of some Unicode scalar value opens the text, and cut exactly when the text properly begins one |
| `SseFraming.ScanIsExact` | src/batch.rs:604-611 | The bytes taken are the encoding of a text, and what is held back is nothing or the beginning of one more character |
| `SseFraming.FramesResume` | src/batch.rs:1538-1556 | Framing a text as it arrives gives the frames of the whole, also when a delimiter is cut |
| `SseFraming.DelimiterIsEarliest` | src/batch.rs:1538-1556 | The delimiter found is a blank line of either style and no blank line starts before it; none is found exactly when there is none |
| `SseFraming.FramesAreExact` | src/batch.rs:1538-1556 | Framing cuts a text at its earliest blank line and frames the rest, and leaves a text without one as it is |
| `SseFraming.Framer.TakeFrame` | src/batch.rs:1538-1556 | The earliest delimiter of either style ends the popped frame; without one nothing changes |
| `SseFraming.Framer.Receive` | src/batch.rs:599-624 | One chunk yields the frames it completes, and fails exactly on malformed text or a tripped size limit |
| `SseFraming.ReceiveAll` | src/batch.rs:594-624 | A stream is read exactly when each chunk is receivable, and then yields the frames of its joined text |
| `SseFraming.AnySplitIsReceivable` | src/batch.rs:594-624 | Text without bad bytes, of any length, is receivable however it is cut into chunks within the limit, if each frame and the rest fit the limit together with a partial delimiter |
| `SseFraming.RoomIsExact` | src/batch.rs:594-624 | Every split of a text into chunks within the limit is receivable exactly when the text has no bad bytes and each frame leaves that room |
| `SseFraming.FitIsExact` | src/batch.rs:594-624 | Some split of a text into such chunks is receivable exactly when the text has no bad bytes and each frame and the rest fit the limit by themselves |
| `SseFraming.CutCanDecide` | src/batch.rs:594-624 | There is a text that passes under one split and fails under another |
| `SseFraming.SplitsAgree` | src/batch.rs:594-624 | Two splits of one text yield the same frames in the same order |
| `PacketGrammar.UvarintUnique` | src/asset_packet.rs:203-220 | At most one number is encoded at a position |
| `PacketGrammar.UvarintIsShortest` | src/asset_packet.rs:203-220 | A number's encoding is the one byte string whose seven-bit digits make it, marked up to the last byte, which is zero only for zero |
| `PacketGrammar.GroupsPrefixFree` | src/asset_packet.rs:53-140 | No group encoding is a proper prefix of another, so a list of groups reads one way |
| `PacketGrammar.PacketRules` | src/asset_packet.rs:32-140 | The rules a packet must keep, written out: the number of groups, distinct assets with derived names, inputs in range and distinct, outputs in range, positive and distinct |
| `AssetPacket.Cursor.Varint` | src/asset_packet.rs:203-220 | Exactly the shortest encodings of 64-bit numbers are read, and the cursor moves by their length; the error after the loop is unreachable |
| `AssetPacket.Cursor.Count` | src/asset_packet.rs:222-229 | A count is refused exactly when it is malformed or exceeds the bytes left, which no real list does |
| `AssetPacket.Cursor.Text` | src/asset_packet.rs:231-244 | Exactly length-prefixed well-formed UTF-8 is read |
| `AssetPacket.Cursor.Metadata` | src/asset_packet.rs:246-253 | Exactly the encodings of a list of text pairs are read |
| `AssetPacket.ReadHeader` | src/asset_packet.rs:54-86 | A header is read exactly when it is well formed and its asset, explicit or derived, is new |
| `AssetPacket.ReadInputs` | src/asset_packet.rs:88-114 | Inputs are read exactly when well formed, in range and distinct |
| `AssetPacket.ReadOutputs` | src/asset_packet.rs:116-139 | Outputs are read exactly when in range, distinct and positive, and the wanted output's amounts are kept |
| `AssetPacket.OutputAssets` | src/asset_packet.rs:32-144 | A payload is accepted exactly when it is the encoding of a well-formed packet; the result is, in strictly ascending order, exactly the assets some group of that name assigns to the output |
| `AssetPacket.OneMeaning` | src/asset_packet.rs:32-144 | Two packets with the same bytes are the same packet |
| `AssetPacket.SortedIsSorted` | src/asset_packet.rs:142 | Sorting orders by asset and keeps the multiset of assets |
| `AssetPacket.EqualSetsAreSame` | src/asset_packet.rs:146-153 | The comparison is equality up to order against every right side exactly when the left side has no repeats |
| `AssetPacket.RepeatsMislead` | src/asset_packet.rs:146-153 | Any repeat on the left lets a different list pass, with anything else in place of one copy |
| `AssetPacket.ParseIndexedAssets` | src/arkade.rs:789-812 | An indexed record's assets are read exactly when all parse, all are positive and none repeats, and are then the entries one by one |
| `AssetPacket.ValidateRecord` | src/arkade.rs:116-141 | A record passes against its creating transaction exactly when the transaction assigns exactly its assets, in any order, to its output |
| `AssetPacket.LeafPacket` | src/renewal.rs:950-993 | The leaf writer succeeds exactly on groups that send one amount from input one to output zero and nothing else; it writes the encoding of their meaning, for one group the bytes written out |
| `AssetPacket.LeafRoundTrip` | src/renewal.rs:950-993 | Decoding what the leaf writer wrote, for distinct assets with positive amounts, gives exactly those assets, sorted |
| `RenewalFee.LargestFee` | src/renewal.rs:465-476 | The largest estimate is found, or a failing program reported |
| `RenewalFee.RequiredCovers` | src/renewal.rs:465-479 | A fee is at least the largest estimate exactly when it covers every program |
| `RenewalFee.RenewalIntent.EstimateSponsoredFee` | src/renewal.rs:405-483 | The candidates start at zero, each is what the programs ask once the one before is paid, and they rise; the answer covers every program on its own outputs with enough change; for monotone programs it is the least such fee, and a refusal for change means there is none |
| `RenewalFee.RenewalIntent.AddFeeFunding` | src/renewal.rs:485-542 | Funding is added exactly when it holds no assets, has value, is under the wallet's script, is not the state itself and pays fee and minimum change; the change output is the remainder, the expiry the earlier one, and a refusal changes nothing |
| `RenewalFee.RenewalIntent.Sponsor` | src/renewal.rs:405-542 | On a fresh intent the estimated fee covers every program on the very outputs then built, change is at least the minimum and funding is fee plus change |
| `RenewalFee.TriedIsBuilt` | src/renewal.rs:405-542 | The outputs priced are the outputs built exactly when the intent has its two original outputs |
| `LocationIndex.Index.Remove` | src/server.rs:186-197 | A removal takes the player from the map and keeps the chunks its exact inverse without empty buckets |
| `LocationIndex.Index.Upsert` | src/server.rs:199-207 | An update moves the player and keeps the chunks exact |
| `LocationIndex.Index.RetainActive` | src/server.rs:209-221 | Exactly the active and recent players stay |
| `LocationIndex.Index.Find` | src/server.rs:223-251 | A query returns locations of the rectangle, its edges included, without duplicates: all of them, or exactly 2,000 with the flag set exactly when more match |
| `LocationIndex.RunThenFind` | src/server.rs:176-252 | After any operations a query answers as a plain map would, each player once |
| `Registry.Server.Authorize` | src/server.rs:788-806 | An action passes exactly within 300,000 ms of the clock, newer than the last one of its key and at least its interval after it; then its time is recorded, otherwise nothing changes, as in the gate step of every run |
| `Registry.Server.SetDelegation` | src/server.rs:911-922 | For either choice: a change is accepted exactly for a registered player under a time newer than the stored one, and then stores choice and time together and changes no other entry |
| `Registry.Server.MergeVerifiedRegistration` | src/server.rs:952-987 | A registration is refused exactly for another owner or a full registry; a new entry starts without consent, a replaced one keeps consent, times and any state newer than the one read; the answer is the state then stored |
| `Registry.Server.ApplyVerifiedState` | src/server.rs:97-113 | State lands exactly on the registration and state it was read from: what was found, or without a live state the old one marked inactive; otherwise nothing changes |
| `Registry.VerificationsChain` | src/server.rs:97-113 | Along every run the states of a player form one chain: each verification that lands had read exactly the state the last one left, under the registration it finds, and stores its own outcome |
| `Registry.UndisturbedVerificationLands` | src/server.rs:97-113 | If nothing rewrote the entry meanwhile, a verification does land |
| `Registry.ConsentTimestampsIncrease` | src/server.rs:911-922 | Along every run accepted consent changes of a player have increasing timestamps |
| `Registry.StoredConsentIsNewest` | src/server.rs:911-922 | From any stored registry: the choice stored is the newest accepted one, or the loaded one if there was none, or off for a new player; no verification or re-registration touches it |
| `Registry.ConsentAcceptedExactly` | src/server.rs:911-922 | Along every run a request to give or withdraw consent is accepted exactly when the player is registered and the request is newer than the loaded choice and every request accepted before |
| `Registry.WithdrawalIsFinal` | src/server.rs:911-922 | A withdrawal newer than every accepted request takes effect, and from then on no renewal of the player is authorized, whenever queued, until a newer request asks for it |
| `Registry.QueuedRenewalHonoursConsent` | src/server.rs:127-131 | A queued renewal starts exactly when no consent change was accepted since it was queued, the registration is signed as then, consent stands, and the state is active and forced or inside its margin |
| `Registry.RegistryStaysSound` | src/server.rs:952-987 | Along every run from a sound registry whose verifications are stamped with a registration time read for that player at any earlier moment, it keeps within its limit, and a published state shows the time its player first registered |
| `Registry.ActionsAreSpaced` | src/server.rs:788-806 | Two accepted actions of one key are at least the second's interval apart, and an accepted time is near the server's clock |
| `Registry.ActionAcceptedExactly` | src/server.rs:788-806 | Along every run an action passes exactly when it is near the clock and newer than, and its interval after, the stored action and every one accepted before it |
| `Recovery.VerifyCheckpoints` | src/txbuild.rs:664-734 | The returned checkpoints are accepted exactly when they are as many as expected, distinct, and each answers its own; the result follows the expected order; the leftover error is unreachable |
| `Recovery.OrderDoesNotMatter` | src/txbuild.rs:664-734 | Any reordering of an accepted response is accepted |
| `Recovery.FinalizeVerified` | src/txbuild.rs:648-662 | Finalization is reported exactly when the ledger has the transaction and one of three calls arrives and is answered; nothing else is ever finalized |
| `Recovery.SubmitPrepared` | src/txbuild.rs:605-635 | Which of finalized, awaiting, unknown and failed is reported is fixed by the ledger found and the faults; no other transaction is touched, and finalization is reported only if it happened |
| `Recovery.ResumeTx` | src/txbuild.rs:453-535 | Whatever is lost: which outcome is reported is fixed by the ledger found and the faults, an accepted transaction is not submitted again, no other transaction is finalized or touched, and success is reported only for the journaled one |
| `Recovery.ReportsExactly` | src/txbuild.rs:453-662 | When each outcome is reported: finalized, awaiting and unknown each exactly under stated conditions on the ledger and the faults, with the statuses 400 to 499 but 408, 409, 425 and 429 as definitive rejections; all else has failed |
| `Recovery.SmoothFinalizes` | src/txbuild.rs:453-535 | An attempt in which nothing fails finalizes the journaled transaction whenever the ledger has it or its inputs are unspent |
| `Recovery.RunRecovery` | src/txbuild.rs:453-535 | The same over any number of interrupted attempts with anyone else's transactions accepted and finalized in between; an accepted transaction stays recoverable, and any undisturbed attempt completes a recoverable one |
| `DeploymentPlan.ChunksCover` | src/operator.rs:686-689 | The shards' tree lists, joined, are the tree list |
| `DeploymentPlan.ChunksAreFull` | src/operator.rs:686-689 | Every shard is full but the last, which is not empty, so there are just as many shards as needed |
| `DeploymentPlan.SharingConserves` | src/operator.rs:723-853 | A transaction that splits a treasury by shares conserves sats and every asset |
| `DeploymentPlan.SharingPays` | src/operator.rs:707-848 | Output i of such a transaction is the treasury of share i |
| `DeploymentPlan.BuildShard` | src/operator.rs:763-889 | A shard's chain gives each tree its dust and one reserve of every asset, hands the exact rest on and ends empty; its three errors never fire on a full source |
| `DeploymentPlan.NarrowChain` | src/operator.rs:660-684 | Along a shard's chain the products taken without an overflow check stay in 64 bits |
| `DeploymentPlan.BuildPlan` | src/operator.rs:556-929 | A plan is built exactly when the required funding fits 64 bits, the reserves exhaust the supply and the funding is exact, and otherwise the first failing check names the error; the distribution spends the whole funding and supply and gives each shard its trees' worth; every transaction conserves, none overflows, each tree is deployed once in order, and the plan passes the executor's checks |
| `DeploymentPlan.CheckPlan` | src/operator.rs:976-1007 | The executor's loop over shards and manifest accepts exactly the plans whose source chain and manifest agree |

## Left out

- Signatures, hashing, key aggregation, PSBT and HTTP encoding: parameters or opaque data.
- ChopPathRuns: the transaction's version and counts, extension and anchor, group positions and shells, the player's
  script hash and the separate player-side chop script are not in the modelled program.
- CraftPathRuns: version and counts, extension, anchor, the player marker's group and the list of allowed groups are
  not in the modelled program.
- WithdrawPathRuns: leaves out the same checks as CraftPathRuns.
- RenewalPathRuns: the renewal shape with its fee variant, the asset shell, the marker's group and the list of allowed
  groups are not in the modelled program.
- RegrowthPathRuns: the renewal shape with its fee variant, the asset shell and the group shells are not in the
  modelled program.
- MaintenancePathRuns: leaves out the same checks as RegrowthPathRuns.
- BuiltChopPathAccepted: acceptance is by the modelled part of the path; see ChopPathRuns.
- BuiltWithdrawPathAccepted: acceptance is by the modelled part of the path; see WithdrawPathRuns.
- BuiltCraftPathAccepted: acceptance is by the modelled part of the path; see CraftPathRuns.
- BuiltRenewalPathAccepted: acceptance is by the modelled part of the path; see RenewalPathRuns.
- BuiltTreePathAccepted: acceptance is by the modelled part of the path; see RegrowthPathRuns.
- ChainsAreRuns: that the ledger creates no asset is an assumption; it says what a state made outside the game may
  hold.
- AcceptedTransactionsAreSteps: that a tree or player state is recognised by its lock and marker is not modelled; a
  transaction is taken to spend the state its inputs show.
- Script size limits and the rule that branch conditions be minimal: the programs only branch on computed bits.
- `decode_tree_with` beyond its reserve and health checks.
- Host builders' dust, liveness, marker-count and 64-bit overflow checks: amounts in the game are below the supply.
- The tail of the owner's multisig leaf after its keys is a parameter of `PlayerTemplate`.
- `expected_vtxo_tree_script`: the script of a tree output is a function parameter of the cosigners and the expiry.
- Building the transaction graph, nonces and partial signatures by the settlement library: outcomes of one step each;
  timeouts are failed calls. `verify_vtxo_tree_signatures` is a predicate on each node.
- The operator's ledger is an assumption: it accepts new transactions on unspent inputs, keeps what it accepted and
  finalizes on request.
- A request that reaches the ledger only after its call returned: `Recovery` has a ledger that acts, or not, before
  the response is lost.
- Loading and saving the registry, restarts of the server, chat, leaderboard and readiness.
- `merge_verified_registration` and `refresh_batch` compare registrations by value, so an entry that changed and
  changed back counts as unchanged, as in the code.
- A frame that does not parse and a transport error end the stream as its close does.
- The order in which players of one chunk are visited: any order.
- Fee programs are any functions from outputs to an optional fee; their expression language is not modelled.
- `require_deployment_shards`, `execute_deployment_shard`, `partition_rollover_candidates`,
  `attach_previous_ark_transactions`, `prepare_player`, `asset_group_count`: lookups, I/O or easy cases of the above.
- BuildPlan: shards are required to fit the 16-bit output positions, as the code's constant tree count does.
- `build_plan`'s issuance and the activation flow, key handling, the indexer client, the watchtower and the browser.
