/**
 The deployment plan: one issued supply, split into shards, each unrolled by a treasury chain that funds one
 tree per transaction. What every plan conserves, and why the executor's checks accept it.
*/
module DeploymentPlan {
  import opened Common

  type TreeState = nat

  /** An output about to be spent: its value and its balance of each asset, TREE marker first. */
  datatype Record = Record(outpoint: OutPoint, sats: nat, assets: seq<nat>)

  /** (index, amount) assignments of one asset. */
  datatype Group = Group(inputs: seq<(nat, nat)>, outputs: seq<(nat, nat)>)

  datatype Transaction = Transaction(input: Record, receivers: seq<nat>, groups: seq<Group>, state: Option<TreeState>)

  /** The transaction identifier as a function of the transaction. */
  type Identify = Transaction -> Txid

  datatype Planned = Planned(state: TreeState, source: OutPoint, tx: Transaction)

  datatype Shard = Shard(source: OutPoint, treeCount: nat, deployments: seq<Planned>)

  datatype Plan = Plan(distribution: Transaction, shards: seq<Shard>, manifest: seq<(TreeState, Txid)>)

  datatype PlanError =
    | RequiredOverflow | SupplyNotExhausted | FundingOverflow | WrongFunding
    | ShardOverflow | TreasuryOverflow | ShardExhausted | TreasuryRetained

  function Sum(s: seq<nat>): nat { if s == [] then 0 else Sum(s[..|s| - 1]) + s[|s| - 1] }

  function Total(entries: seq<(nat, nat)>): nat {
    if entries == [] then 0 else Total(entries[..|entries| - 1]) + entries[|entries| - 1].1
  }

  function Scaled(scale: nat, s: seq<nat>): seq<nat> { seq(|s|, i requires 0 <= i < |s| => scale * s[i]) }

  lemma {:induction false} SumScaled(scale: nat, s: seq<nat>)
    ensures Sum(Scaled(scale, s)) == scale * Sum(s)
  {
    if s != [] {
      var last := |s| - 1;
      SumScaled(scale, s[..last]);
      assert Scaled(scale, s)[..last] == Scaled(scale, s[..last]);
    }
  }

  /** Amounts assigned at the outputs 0, 1, 2, ... */
  function Indexed(amounts: seq<nat>): seq<(nat, nat)> { seq(|amounts|, i requires 0 <= i < |amounts| => (i, amounts[i])) }

  lemma {:induction false} TotalIndexed(amounts: seq<nat>)
    ensures Total(Indexed(amounts)) == Sum(amounts)
  {
    if amounts != [] {
      var last := |amounts| - 1;
      TotalIndexed(amounts[..last]);
      assert Indexed(amounts)[..last] == Indexed(amounts[..last]);
    }
  }

  /** What a group assigns at an output. */
  function AssignedAt(entries: seq<(nat, nat)>, index: nat): nat {
    if entries == [] then 0
    else (if entries[|entries| - 1].0 == index then entries[|entries| - 1].1 else 0) + AssignedAt(entries[..|entries| - 1], index)
  }

  lemma {:induction false} AssignedIndexed(amounts: seq<nat>, index: nat)
    ensures AssignedAt(Indexed(amounts), index) == if index < |amounts| then amounts[index] else 0
  {
    if amounts != [] {
      var last := |amounts| - 1;
      AssignedIndexed(amounts[..last], index);
      assert Indexed(amounts)[..last] == Indexed(amounts[..last]);
    }
  }

  /** The balances of an output. */
  function BalancesAt(tx: Transaction, index: nat): seq<nat> {
    seq(|tx.groups|, k requires 0 <= k < |tx.groups| => AssignedAt(tx.groups[k].outputs, index))
  }

  /** An output as the next transaction spends it. */
  function OutputOf(tx: Transaction, identify: Identify, index: nat): Record
    requires index < |tx.receivers|
  {
    Record(OutPoint(identify(tx), index), tx.receivers[index], BalancesAt(tx, index))
  }

  /** Every sat and every unit of every asset that goes in comes out. */
  predicate Conserves(tx: Transaction) {
    && Sum(tx.receivers) == tx.input.sats
    && |tx.groups| == |tx.input.assets|
    && forall k :: 0 <= k < |tx.groups| ==>
         tx.groups[k].inputs == [(0, tx.input.assets[k])] && Total(tx.groups[k].outputs) == tx.input.assets[k]
  }

  lemma {:induction false} PartOfSum(s: seq<nat>, i: nat)
    requires i < |s|
    ensures s[i] <= Sum(s)
  {
    if i < |s| - 1 { PartOfSum(s[..|s| - 1], i); }
  }

  lemma {:induction false} PartOfTotal(entries: seq<(nat, nat)>, i: nat)
    requires i < |entries|
    ensures entries[i].1 <= Total(entries)
  {
    if i < |entries| - 1 { PartOfTotal(entries[..|entries| - 1], i); }
  }

  predicate Narrow(r: Record) { r.sats <= MAX_U64 && forall a <- r.assets :: a <= MAX_U64 }

  predicate WritesNarrow(tx: Transaction) {
    && (forall sats <- tx.receivers :: sats <= MAX_U64)
    && forall k, i :: 0 <= k < |tx.groups| && 0 <= i < |tx.groups[k].outputs| ==> tx.groups[k].outputs[i].1 <= MAX_U64
  }

  /** Products taken without an overflow check stay in 64 bits: a transaction that conserves narrow balances writes narrow amounts. */
  lemma ConservedIsNarrow(tx: Transaction)
    requires Conserves(tx) && Narrow(tx.input)
    ensures WritesNarrow(tx)
  {
    forall i | 0 <= i < |tx.receivers| ensures tx.receivers[i] <= MAX_U64 { PartOfSum(tx.receivers, i); }
    forall k, i | 0 <= k < |tx.groups| && 0 <= i < |tx.groups[k].outputs| ensures tx.groups[k].outputs[i].1 <= MAX_U64 {
      PartOfTotal(tx.groups[k].outputs, i);
      assert tx.input.assets[k] in tx.input.assets;
    }
  }

  /** A transaction paying `shares[i]` trees' worth to output `i`. */
  function Sharing(input: Record, shares: seq<nat>, before: nat, dust: nat, rates: seq<nat>, state: Option<TreeState>): Transaction {
    Transaction(input, Scaled(dust, shares),
                seq(|rates|, k requires 0 <= k < |rates| =>
                  Group([(0, rates[k] * before)], Indexed(Scaled(rates[k], shares)))),
                state)
  }

  /** What the treasury holds for `n` trees. */
  function Treasury(outpoint: OutPoint, n: nat, dust: nat, rates: seq<nat>): Record {
    Record(outpoint, dust * n, Scaled(n, rates))
  }

  lemma SharingConserves(outpoint: OutPoint, shares: seq<nat>, before: nat, dust: nat, rates: seq<nat>, state: Option<TreeState>)
    requires Sum(shares) == before
    ensures Conserves(Sharing(Treasury(outpoint, before, dust, rates), shares, before, dust, rates, state))
  {
    var tx := Sharing(Treasury(outpoint, before, dust, rates), shares, before, dust, rates, state);
    SumScaled(dust, shares);
    forall k | 0 <= k < |rates| ensures Total(tx.groups[k].outputs) == tx.input.assets[k] {
      SumScaled(rates[k], shares);
      TotalIndexed(Scaled(rates[k], shares));
    }
  }

  lemma SharingPays(input: Record, shares: seq<nat>, before: nat, dust: nat, rates: seq<nat>, state: Option<TreeState>, identify: Identify, i: nat)
    requires i < |shares|
    ensures var tx := Sharing(input, shares, before, dust, rates, state);
            OutputOf(tx, identify, i) == Treasury(OutPoint(identify(tx), i), shares[i], dust, rates)
  {
    var tx := Sharing(input, shares, before, dust, rates, state);
    forall k | 0 <= k < |rates| ensures BalancesAt(tx, i)[k] == shares[i] * rates[k] {
      AssignedIndexed(Scaled(rates[k], shares), i);
    }
    assert BalancesAt(tx, i) == Scaled(shares[i], rates);
  }

  // ----- what a plan guarantees -----

  /** The first output gets one tree's sats and of each asset one tree's reserve; the second, if any, `later` times that. */
  ghost predicate FundsTree(tx: Transaction, later: nat, dust: nat, rates: seq<nat>) {
    && tx.receivers == (if later == 0 then [dust] else [dust, dust * later])
    && |tx.groups| == |rates|
    && forall k :: 0 <= k < |rates| ==>
         && tx.groups[k].inputs == [(0, rates[k] * (later + 1))]
         && tx.groups[k].outputs == if later == 0 then [(0, rates[k])] else [(0, rates[k]), (1, rates[k] * later)]
  }

  /** One deployment: it conserves, funds its tree in full, and spends the source or the previous remainder. */
  ghost predicate DeploymentOk(source: Record, states: seq<TreeState>, d: seq<Planned>, i: nat, dust: nat, rates: seq<nat>, identify: Identify)
    requires i < |d| <= |states|
  {
    && d[i].state == states[i] && d[i].tx.state == Some(states[i]) && d[i].source == d[i].tx.input.outpoint
    && Conserves(d[i].tx) && FundsTree(d[i].tx, |states| - 1 - i, dust, rates)
    && OutputOfFirst(d[i].tx, identify) == Some(Treasury(OutPoint(identify(d[i].tx), 0), 1, dust, rates))
    && |d[i].tx.receivers| == (if i + 1 == |states| then 1 else 2)
    && if i == 0 then d[i].tx.input == source
       else |d[i - 1].tx.receivers| == 2 && d[i].tx.input == OutputOf(d[i - 1].tx, identify, 1)
  }

  /** One shard: a chain that starts at its source, funds its trees one by one and ends with nothing left. */
  ghost predicate ShardOk(source: Record, states: seq<TreeState>, d: seq<Planned>, dust: nat, rates: seq<nat>, identify: Identify) {
    |d| == |states| && forall i :: 0 <= i < |d| ==> DeploymentOk(source, states, d, i, dust, rates, identify)
  }

  function OutputOfFirst(tx: Transaction, identify: Identify): Option<Record> {
    if tx.receivers == [] then None else Some(OutputOf(tx, identify, 0))
  }

  function SizeSum(shards: seq<Shard>): nat {
    if shards == [] then 0 else SizeSum(shards[..|shards| - 1]) + |shards[|shards| - 1].deployments|
  }

  function AllDeployments(shards: seq<Shard>): (d: seq<Planned>)
    ensures |d| == SizeSum(shards)
  {
    if shards == [] then [] else AllDeployments(shards[..|shards| - 1]) + shards[|shards| - 1].deployments
  }

  /** The source-chain checks `execute_plan` makes before it submits anything. */
  predicate ShardChecks(shard: Shard, index: nat, distributionId: Txid, identify: Identify) {
    && shard.source == OutPoint(distributionId, index) && shard.treeCount == |shard.deployments|
    && forall i :: 0 <= i < |shard.deployments| ==> shard.deployments[i].source == ExpectedSource(shard, i, identify)
  }

  /** The shard's own source, then each time output one of the deployment before. */
  function ExpectedSource(shard: Shard, i: nat, identify: Identify): OutPoint
    requires i <= |shard.deployments|
  {
    if i == 0 then shard.source else OutPoint(identify(shard.deployments[i - 1].tx), 1)
  }

  function Pairs(d: seq<Planned>, identify: Identify): (p: seq<(TreeState, Txid)>)
    ensures |p| == |d|
  {
    seq(|d|, i requires 0 <= i < |d| => (d[i].state, identify(d[i].tx)))
  }

  predicate PlanChecks(plan: Plan, identify: Identify) {
    && (forall s :: 0 <= s < |plan.shards| ==> ShardChecks(plan.shards[s], s, identify(plan.distribution), identify))
    && plan.manifest == Pairs(AllDeployments(plan.shards), identify)
  }

  // ----- building -----

  /** `chunks(size)`: every shard full but perhaps the last. */
  function Chunks(states: seq<TreeState>, size: nat): (c: seq<seq<TreeState>>)
    requires size > 0
    ensures forall k <- c :: 0 < |k| <= size
    decreases |states|
  {
    if states == [] then []
    else
      var n := if |states| < size then |states| else size;
      [states[..n]] + Chunks(states[n..], size)
  }

  function Sizes(chunks: seq<seq<TreeState>>): seq<nat> { seq(|chunks|, i requires 0 <= i < |chunks| => |chunks[i]|) }

  function Flattened(chunks: seq<seq<TreeState>>): (f: seq<TreeState>)
    ensures |f| == Sum(Sizes(chunks))
  {
    if chunks == [] then []
    else
      assert Sizes(chunks)[..|chunks| - 1] == Sizes(chunks[..|chunks| - 1]);
      Flattened(chunks[..|chunks| - 1]) + chunks[|chunks| - 1]
  }

  lemma {:induction false} FlattenedFront(first: seq<TreeState>, rest: seq<seq<TreeState>>)
    ensures Flattened([first] + rest) == first + Flattened(rest)
  {
    hide Flattened;
    if rest == [] {
      assert [first] + rest == [] + [first];
      FlattenedSnoc([], first);
      NothingFlattened();
      assert first + [] == first == [] + first;
    } else {
      var (front, last) := (rest[..|rest| - 1], rest[|rest| - 1]);
      assert rest == front + [last] && [first] + rest == ([first] + front) + [last];
      FlattenedFront(first, front);
      FlattenedSnoc(front, last);
      FlattenedSnoc([first] + front, last);
      assert first + (Flattened(front) + last) == (first + Flattened(front)) + last;
    }
  }

  lemma FlattenedSnoc(front: seq<seq<TreeState>>, last: seq<TreeState>)
    ensures Flattened(front + [last]) == Flattened(front) + last
  {
    assert (front + [last])[..|front|] == front;
  }

  /** The shards are the trees, in order. */
  lemma {:induction false} ChunksCover(states: seq<TreeState>, size: nat)
    requires size > 0
    ensures Flattened(Chunks(states, size)) == states
    decreases |states|
  {
    hide Flattened;
    if states == [] {
      NothingFlattened();
    } else {
      var n := if |states| < size then |states| else size;
      ChunksCover(states[n..], size);
      FlattenedFront(states[..n], Chunks(states[n..], size));
    }
  }

  /** Every shard is full but the last, which is not empty. */
  lemma {:induction false} ChunksAreFull(states: seq<TreeState>, size: nat, s: nat)
    requires size > 0 && s < |Chunks(states, size)|
    ensures s * size < |states| && |Chunks(states, size)[s]| == if |states| - s * size < size then |states| - s * size else size
    ensures s + 1 < |Chunks(states, size)| ==> |Chunks(states, size)[s]| == size
    ensures |states| <= |Chunks(states, size)| * size < |states| + size
    decreases |states|
  {
    var n := if |states| < size then |states| else size;
    var later := Chunks(states[n..], size);
    if later != [] {
      ChunksAreFull(states[n..], size, if s > 0 then s - 1 else 0);
      assert s > 0 ==> s * size == (s - 1) * size + size;
      assert (|later| + 1) * size == |later| * size + size;
    }
  }

  lemma NothingFlattened()
    ensures Flattened([]) == []
  {}

  /** One shard's treasury chain: the record is taken at each tree and put back while trees remain. */
  method BuildShard(source: Record, states: seq<TreeState>, dust: nat, rates: seq<nat>, identify: Identify)
    returns (r: Result<seq<Planned>, PlanError>)
    requires source == Treasury(source.outpoint, |states|, dust, rates) && states != [] && dust * |states| <= MAX_U64
    ensures r.Ok? && ShardOk(source, states, r.value, dust, rates, identify)
  {
    hide Chained, ShardOk, Sharing, Conserves, OutputOfFirst, FundsTree;
    var treasury := Some(source);
    NoneDeployed(source, states, dust, rates, identify);
    var deployments: seq<Planned> := [];
    for i := 0 to |states|
      invariant |deployments| == i
      invariant treasury == if i == |states| then None
                            else Some(Treasury(Next(source, deployments, identify), |states| - i, dust, rates))
      invariant Chained(source, states, deployments, dust, rates, identify)
    {
      var before := |states| - i;
      var after := before - 1;
      if treasury.None? { return Err(ShardExhausted); }
      var current := treasury.value;
      treasury := None;
      ScaleDown(dust, after, |states|);
      if dust * after > MAX_U64 { return Err(TreasuryOverflow); }
      var shares := if after > 0 then [1, after] else [1];
      var tx := Sharing(current, shares, before, dust, rates, Some(states[i]));
      Step(source, states, deployments, current, dust, rates, identify);
      deployments := deployments + [Planned(states[i], current.outpoint, tx)];
      if after > 0 { treasury := Some(Treasury(OutPoint(identify(tx), 1), after, dust, rates)); }
    }
    if treasury.Some? { return Err(TreasuryRetained); }
    ChainComplete(source, states, deployments, dust, rates, identify);
    return Ok(deployments);
  }

  lemma ScaleDown(dust: nat, n: nat, most: nat)
    requires n <= most
    ensures dust * n <= dust * most
  {}

  lemma NoneDeployed(source: Record, states: seq<TreeState>, dust: nat, rates: seq<nat>, identify: Identify)
    ensures Chained(source, states, [], dust, rates, identify)
  {}

  lemma ChainComplete(source: Record, states: seq<TreeState>, d: seq<Planned>, dust: nat, rates: seq<nat>, identify: Identify)
    requires Chained(source, states, d, dust, rates, identify) && |d| == |states|
    ensures ShardOk(source, states, d, dust, rates, identify)
  {
    hide Conserves, OutputOf, Treasury, OutputOfFirst, FundsTree;
  }

  /** Where the treasury stands after some deployments. */
  function Next(source: Record, d: seq<Planned>, identify: Identify): OutPoint {
    if d == [] then source.outpoint else OutPoint(identify(d[|d| - 1].tx), 1)
  }

  /** The chain so far; the last remainder is what the trees still to come need. */
  ghost predicate Chained(source: Record, states: seq<TreeState>, d: seq<Planned>, dust: nat, rates: seq<nat>, identify: Identify) {
    && |d| <= |states|
    && (forall i :: 0 <= i < |d| ==> DeploymentOk(source, states, d, i, dust, rates, identify))
    && (0 < |d| < |states| ==>
          var tx := d[|d| - 1].tx;
          |tx.receivers| == 2 && OutputOf(tx, identify, 1) == Treasury(OutPoint(identify(tx), 1), |states| - |d|, dust, rates))
  }

  lemma Step(source: Record, states: seq<TreeState>, d: seq<Planned>, current: Record, dust: nat, rates: seq<nat>, identify: Identify)
    requires Chained(source, states, d, dust, rates, identify) && |d| < |states|
    requires source == Treasury(source.outpoint, |states|, dust, rates)
    requires current == Treasury(Next(source, d, identify), |states| - |d|, dust, rates)
    ensures var before := |states| - |d|;
            var tx := Sharing(current, if before > 1 then [1, before - 1] else [1], before, dust, rates, Some(states[|d|]));
            Chained(source, states, d + [Planned(states[|d|], current.outpoint, tx)], dust, rates, identify)
  {
    hide Conserves, OutputOf, Sharing, Treasury, FundsTree;
    var before := |states| - |d|;
    var shares := if before > 1 then [1, before - 1] else [1];
    SumOfShares(before);
    SharingFunds(current, before, dust, rates, Some(states[|d|]));
    SharingConserves(current.outpoint, shares, before, dust, rates, Some(states[|d|]));
    SharingShape(current, shares, before, dust, rates, Some(states[|d|]));
    SharingPays(current, shares, before, dust, rates, Some(states[|d|]), identify, 0);
    if before > 1 { SharingPays(current, shares, before, dust, rates, Some(states[|d|]), identify, 1); }
    TreasuryShape(Next(source, d, identify), before, dust, rates);
    var tx := Sharing(current, shares, before, dust, rates, Some(states[|d|]));
    var all := d + [Planned(states[|d|], current.outpoint, tx)];
    forall i | 0 <= i < |all| ensures DeploymentOk(source, states, all, i, dust, rates, identify) {
      if i < |d| { assert DeploymentOk(source, states, d, i, dust, rates, identify); }
    }
  }

  lemma SumOfShares(before: nat)
    requires before > 0
    ensures Sum(if before > 1 then [1, before - 1] else [1]) == before
  {
    if before > 1 { assert [1, before - 1][..1] == [1]; }
    assert [1][..0] == [];
  }

  lemma SharingFunds(input: Record, before: nat, dust: nat, rates: seq<nat>, state: Option<TreeState>)
    requires before > 0
    ensures FundsTree(Sharing(input, if before > 1 then [1, before - 1] else [1], before, dust, rates, state), before - 1, dust, rates)
  {
    var shares := if before > 1 then [1, before - 1] else [1];
    forall k | 0 <= k < |rates|
      ensures Indexed(Scaled(rates[k], shares))
           == if before == 1 then [(0, rates[k])] else [(0, rates[k]), (1, rates[k] * (before - 1))]
    {}
  }

  lemma SharingShape(input: Record, shares: seq<nat>, before: nat, dust: nat, rates: seq<nat>, state: Option<TreeState>)
    ensures var tx := Sharing(input, shares, before, dust, rates, state);
            tx.input == input && |tx.receivers| == |shares| && tx.state == state
  {}

  lemma TreasuryShape(outpoint: OutPoint, n: nat, dust: nat, rates: seq<nat>)
    ensures Treasury(outpoint, n, dust, rates).outpoint == outpoint
  {}

  /** Shard `s` of a plan spends distribution output `s` and deploys chunk `s`. */
  ghost predicate ShardBuilt(distribution: Transaction, shard: Shard, s: nat, states: seq<TreeState>, dust: nat, rates: seq<nat>, identify: Identify) {
    && s < |distribution.receivers|
    && ShardOk(OutputOf(distribution, identify, s), states, shard.deployments, dust, rates, identify)
    && ShardChecks(shard, s, identify(distribution), identify)
  }

  function StatesOf(d: seq<Planned>): seq<TreeState> { seq(|d|, i requires 0 <= i < |d| => d[i].state) }

  /** Output positions in an asset packet have 16 bits. */
  const MAX_OUTPUTS := 0x1_0000

  /** The reserves of all trees together are exactly the issued supply. */
  predicate Exhausted(rates: seq<nat>, trees: nat, supply: seq<nat>)
    requires |rates| == |supply|
  {
    forall k :: 0 <= k < |rates| ==> rates[k] * trees == supply[k]
  }

  /** The checked sum of the funding inputs. */
  method TotalFunding(funding: seq<U64>) returns (r: Result<U64, PlanError>)
    ensures r == if Sum(funding) <= MAX_U64 then Ok(Sum(funding)) else Err(FundingOverflow)
  {
    var sum: U64 := 0;
    assert funding[..0] == [];
    for i := 0 to |funding|
      invariant sum == Sum(funding[..i]) <= MAX_U64
    {
      assert funding[..i + 1][..i] == funding[..i];
      if sum + funding[i] > MAX_U64 {
        SumGrows(funding, i + 1);
        return Err(FundingOverflow);
      }
      sum := sum + funding[i];
    }
    assert funding[..|funding|] == funding;
    return Ok(sum);
  }

  lemma {:induction false} SumGrows(s: seq<nat>, n: nat)
    requires n <= |s|
    ensures Sum(s[..n]) <= Sum(s)
  {
    if n == |s| { assert s[..n] == s; }
    else {
      SumGrows(s[..|s| - 1], n);
      assert s[..|s| - 1][..n] == s[..n];
    }
  }

  lemma NarrowTreasury(outpoint: OutPoint, n: nat, dust: nat, rates: seq<nat>, supply: seq<U64>)
    requires |rates| == |supply| && Exhausted(rates, n, supply) && dust * n <= MAX_U64
    ensures Narrow(Treasury(outpoint, n, dust, rates))
  {
    var held := Treasury(outpoint, n, dust, rates).assets;
    forall k | 0 <= k < |held| ensures held[k] <= MAX_U64 { assert held[k] == rates[k] * n == supply[k]; }
  }

  lemma {:induction false} AssignedIsPart(entries: seq<(nat, nat)>, index: nat)
    ensures AssignedAt(entries, index) <= Total(entries)
  {
    if entries != [] { AssignedIsPart(entries[..|entries| - 1], index); }
  }

  lemma NarrowOutput(tx: Transaction, identify: Identify, index: nat)
    requires Conserves(tx) && Narrow(tx.input) && index < |tx.receivers|
    ensures Narrow(OutputOf(tx, identify, index))
  {
    ConservedIsNarrow(tx);
    forall k | 0 <= k < |tx.groups| ensures BalancesAt(tx, index)[k] <= MAX_U64 {
      AssignedIsPart(tx.groups[k].outputs, index);
      assert tx.input.assets[k] in tx.input.assets;
    }
    assert tx.receivers[index] in tx.receivers;
  }

  lemma ChainLink(source: Record, states: seq<TreeState>, d: seq<Planned>, i: nat, dust: nat, rates: seq<nat>, identify: Identify)
    requires ShardOk(source, states, d, dust, rates, identify) && i < |d|
    ensures Conserves(d[i].tx)
    ensures if i == 0 then d[i].tx.input == source
            else |d[i - 1].tx.receivers| == 2 && d[i].tx.input == OutputOf(d[i - 1].tx, identify, 1)
  {
    hide Conserves, OutputOf, OutputOfFirst, FundsTree;
    assert DeploymentOk(source, states, d, i, dust, rates, identify);
  }

  /** Along a shard's chain every balance stays in 64 bits. */
  lemma {:induction false} NarrowChain(source: Record, states: seq<TreeState>, d: seq<Planned>, i: nat,
                                       dust: nat, rates: seq<nat>, identify: Identify)
    requires ShardOk(source, states, d, dust, rates, identify) && Narrow(source) && i < |d|
    ensures Narrow(d[i].tx.input) && Conserves(d[i].tx)
  {
    hide Narrow, Conserves, OutputOf, ShardOk;
    ChainLink(source, states, d, i, dust, rates, identify);
    if i > 0 {
      NarrowChain(source, states, d, i - 1, dust, rates, identify);
      NarrowOutput(d[i - 1].tx, identify, 1);
    }
  }

  /** The whole funding and the whole supply go in; each shard gets its trees' worth of both. */
  ghost predicate Distributes(plan: Plan, funding: nat, dust: nat, rates: seq<nat>, supply: seq<nat>) {
    var tx := plan.distribution;
    && tx.input.sats == funding && tx.input.assets == supply
    && |tx.receivers| == |plan.shards| && |tx.groups| == |rates|
    && (forall s :: 0 <= s < |plan.shards| ==> tx.receivers[s] == dust * |plan.shards[s].deployments|)
    && forall k :: 0 <= k < |rates| ==>
         && |tx.groups[k].outputs| == |plan.shards|
         && forall s :: 0 <= s < |plan.shards| ==> tx.groups[k].outputs[s] == (s, rates[k] * |plan.shards[s].deployments|)
  }

  lemma PlanDistributes(plan: Plan, chunks: seq<seq<TreeState>>, outpoint: OutPoint, n: nat, dust: nat, rates: seq<nat>, supply: seq<nat>)
    requires |rates| == |supply| && Exhausted(rates, n, supply) && |plan.shards| == |chunks|
    requires plan.distribution == Sharing(Treasury(outpoint, n, dust, rates), Sizes(chunks), n, dust, rates, None)
    requires forall s :: 0 <= s < |chunks| ==> |plan.shards[s].deployments| == |chunks[s]|
    ensures Distributes(plan, dust * n, dust, rates, supply)
  {
    assert Scaled(n, rates) == supply;
  }

  /** No amount written anywhere in a plan exceeds 64 bits. */
  ghost predicate NeverOverflows(plan: Plan) {
    && WritesNarrow(plan.distribution)
    && forall s, i :: 0 <= s < |plan.shards| && 0 <= i < |plan.shards[s].deployments| ==> WritesNarrow(plan.shards[s].deployments[i].tx)
  }

  lemma PlanNeverOverflows(plan: Plan, chunks: seq<seq<TreeState>>, dust: nat, rates: seq<nat>, identify: Identify)
    requires Conserves(plan.distribution) && Narrow(plan.distribution.input) && |plan.shards| == |chunks|
    requires forall s :: 0 <= s < |chunks| ==>
               ShardBuilt(plan.distribution, plan.shards[s], s, chunks[s], dust, rates, identify)
    ensures NeverOverflows(plan)
  {
    hide Conserves, Narrow, ShardOk, ShardChecks, OutputOf;
    ConservedIsNarrow(plan.distribution);
    forall s, i | 0 <= s < |plan.shards| && 0 <= i < |plan.shards[s].deployments|
      ensures WritesNarrow(plan.shards[s].deployments[i].tx)
    {
      assert ShardBuilt(plan.distribution, plan.shards[s], s, chunks[s], dust, rates, identify);
      NarrowOutput(plan.distribution, identify, s);
      NarrowChain(OutputOf(plan.distribution, identify, s), chunks[s], plan.shards[s].deployments, i, dust, rates, identify);
      ConservedIsNarrow(plan.shards[s].deployments[i].tx);
    }
  }

  /**
   `build_plan` after issuance: for any trees and shard size whose reserves exhaust the supply, every
   transaction conserves sats and assets, every tree gets one marker and its full reserves, every treasury
   chain ends empty, and the executor's source-chain checks pass. Shards are numbered in 16 bits.
  */
  method BuildPlan(trees: seq<TreeState>, size: nat, dust: U64, rates: seq<U64>, supply: seq<U64>, funding: seq<U64>,
                   genesis: Txid, identify: Identify)
    returns (r: Result<Plan, PlanError>)
    requires size > 0 && |rates| == |supply| && |Chunks(trees, size)| <= MAX_OUTPUTS
    ensures r.Ok? <==> dust * |trees| <= MAX_U64 && Exhausted(rates, |trees|, supply) && Sum(funding) == dust * |trees|
    ensures r.Err? ==> r.error == if dust * |trees| > MAX_U64 then RequiredOverflow
                                  else if !Exhausted(rates, |trees|, supply) then SupplyNotExhausted
                                  else if Sum(funding) > MAX_U64 then FundingOverflow
                                  else WrongFunding
    ensures r.Ok? ==> NeverOverflows(r.value)
    ensures r.Ok? ==> r.value.distribution.input == Treasury(OutPoint(genesis, 0), |trees|, dust, rates)
    ensures r.Ok? ==> Conserves(r.value.distribution)
    ensures r.Ok? ==> Distributes(r.value, Sum(funding), dust, rates, supply)
    ensures r.Ok? ==> |r.value.shards| == |Chunks(trees, size)| && forall s :: 0 <= s < |r.value.shards| ==>
                        ShardBuilt(r.value.distribution, r.value.shards[s], s, Chunks(trees, size)[s], dust, rates, identify)
    ensures r.Ok? ==> StatesOf(AllDeployments(r.value.shards)) == trees
    ensures r.Ok? ==> PlanChecks(r.value, identify)
  {
    hide Conserves, ShardOk, Treasury, OutputOf, Sharing, ShardBuilt, AllDeployments, Pairs, StatesOf, Flattened, Chunks, Sizes;
    var n := |trees|;
    if dust * n > MAX_U64 { return Err(RequiredOverflow); }
    if exists k :: 0 <= k < |rates| && rates[k] * n != supply[k] { return Err(SupplyNotExhausted); }
    NarrowTreasury(OutPoint(genesis, 0), n, dust, rates, supply);
    var total := TotalFunding(funding);
    if total.Err? { return Err(total.error); }
    if total.value != dust * n { return Err(WrongFunding); }
    var chunks := Chunks(trees, size);
    ChunksCover(trees, size);
    var distribution := Sharing(Treasury(OutPoint(genesis, 0), n, dust, rates), Sizes(chunks), n, dust, rates, None);
    SizesSum(trees, size);
    SharingConserves(OutPoint(genesis, 0), Sizes(chunks), n, dust, rates, None);
    SharingShape(Treasury(OutPoint(genesis, 0), n, dust, rates), Sizes(chunks), n, dust, rates, None);
    var id := identify(distribution);
    var shards: seq<Shard> := [];
    var manifest: seq<(TreeState, Txid)> := [];
    NoShards(identify);
    assert chunks[..0] == [];
    for s := 0 to |chunks|
      invariant |shards| == s
      invariant forall j :: 0 <= j < s ==> ShardBuilt(distribution, shards[j], j, chunks[j], dust, rates, identify)
      invariant manifest == Pairs(AllDeployments(shards), identify)
      invariant StatesOf(AllDeployments(shards)) == Flattened(chunks[..s])
    {
      SizeAt(chunks, s);
      PartOfSum(Sizes(chunks), s);
      ScaleDown(dust, |chunks[s]|, n);
      if dust * |chunks[s]| > MAX_U64 { return Err(ShardOverflow); }
      SharingPays(Treasury(OutPoint(genesis, 0), n, dust, rates), Sizes(chunks), n, dust, rates, None, identify, s);
      var source := Treasury(OutPoint(id, s), |chunks[s]|, dust, rates);
      TreasuryShape(OutPoint(id, s), |chunks[s]|, dust, rates);
      var built := BuildShard(source, chunks[s], dust, rates, identify);
      var shard := Shard(OutPoint(id, s), |chunks[s]|, built.value);
      ShardPasses(distribution, shard, s, chunks[s], dust, rates, identify);
      OneMoreShard(shards, shard, chunks, s, identify);
      manifest := manifest + Pairs(built.value, identify);
      shards := shards + [shard];
    }
    assert chunks[..|chunks|] == chunks;
    r := Ok(Plan(distribution, shards, manifest));
    BuiltPlanChecks(r.value, chunks, dust, rates, identify);
    forall s | 0 <= s < |chunks| ensures |shards[s].deployments| == |chunks[s]| {
      BuiltSize(distribution, shards[s], s, chunks[s], dust, rates, identify);
    }
    PlanDistributes(r.value, chunks, OutPoint(genesis, 0), n, dust, rates, supply);
    PlanNeverOverflows(r.value, chunks, dust, rates, identify);
  }

  lemma BuiltSize(distribution: Transaction, shard: Shard, s: nat, states: seq<TreeState>, dust: nat, rates: seq<nat>, identify: Identify)
    requires ShardBuilt(distribution, shard, s, states, dust, rates, identify)
    ensures |shard.deployments| == |states|
  {}

  lemma SizesSum(trees: seq<TreeState>, size: nat)
    requires size > 0
    ensures Sum(Sizes(Chunks(trees, size))) == |trees|
    ensures forall c <- Chunks(trees, size) :: c != []
  {
    ChunksCover(trees, size);
  }

  lemma SizeAt(chunks: seq<seq<TreeState>>, s: nat)
    requires s < |chunks|
    ensures |Sizes(chunks)| == |chunks| && Sizes(chunks)[s] == |chunks[s]|
  {}

  lemma NoShards(identify: Identify)
    ensures Pairs(AllDeployments([]), identify) == [] && StatesOf(AllDeployments([])) == Flattened([]) == []
  {}

  lemma BuiltPlanChecks(plan: Plan, chunks: seq<seq<TreeState>>, dust: nat, rates: seq<nat>, identify: Identify)
    requires |plan.shards| == |chunks| && plan.manifest == Pairs(AllDeployments(plan.shards), identify)
    requires forall s :: 0 <= s < |chunks| ==>
               ShardBuilt(plan.distribution, plan.shards[s], s, chunks[s], dust, rates, identify)
    ensures PlanChecks(plan, identify)
  {
    hide ShardOk, ShardChecks;
    forall s | 0 <= s < |plan.shards| ensures ShardChecks(plan.shards[s], s, identify(plan.distribution), identify) {
      assert ShardBuilt(plan.distribution, plan.shards[s], s, chunks[s], dust, rates, identify);
    }
  }

  lemma ShardPasses(distribution: Transaction, shard: Shard, s: nat, states: seq<TreeState>, dust: nat, rates: seq<nat>, identify: Identify)
    requires s < |distribution.receivers| && shard.source == OutPoint(identify(distribution), s) && shard.treeCount == |states|
    requires ShardOk(OutputOf(distribution, identify, s), states, shard.deployments, dust, rates, identify)
    ensures ShardBuilt(distribution, shard, s, states, dust, rates, identify)
    ensures StatesOf(shard.deployments) == states
  {
    hide Conserves, OutputOfFirst, Treasury, FundsTree;
    var d := shard.deployments;
    forall i | 0 <= i < |d| ensures d[i].source == ExpectedSource(shard, i, identify) {
      assert DeploymentOk(OutputOf(distribution, identify, s), states, d, i, dust, rates, identify);
    }
    forall i | 0 <= i < |d| ensures d[i].state == states[i] {
      assert DeploymentOk(OutputOf(distribution, identify, s), states, d, i, dust, rates, identify);
    }
    assert StatesOf(d) == states;
  }

  lemma OneMoreShard(shards: seq<Shard>, shard: Shard, chunks: seq<seq<TreeState>>, s: nat, identify: Identify)
    requires s < |chunks| && |shards| == s && StatesOf(shard.deployments) == chunks[s]
    requires StatesOf(AllDeployments(shards)) == Flattened(chunks[..s])
    ensures Pairs(AllDeployments(shards + [shard]), identify) == Pairs(AllDeployments(shards), identify) + Pairs(shard.deployments, identify)
    ensures StatesOf(AllDeployments(shards + [shard])) == Flattened(chunks[..s + 1])
  {
    FlattenedNext(chunks, s);
    AllNext(shards, shard);
    hide AllDeployments, Flattened, StatesOf, Pairs;
    StatesOfBoth(AllDeployments(shards), shard.deployments);
    PairsOfBoth(AllDeployments(shards), shard.deployments, identify);
  }

  lemma StatesOfBoth(a: seq<Planned>, b: seq<Planned>)
    ensures StatesOf(a + b) == StatesOf(a) + StatesOf(b)
  {}

  lemma PairsOfBoth(a: seq<Planned>, b: seq<Planned>, identify: Identify)
    ensures Pairs(a + b, identify) == Pairs(a, identify) + Pairs(b, identify)
  {}

  lemma AllNext(shards: seq<Shard>, shard: Shard)
    ensures AllDeployments(shards + [shard]) == AllDeployments(shards) + shard.deployments
  {
    assert (shards + [shard])[..|shards|] == shards;
  }

  lemma FlattenedNext(chunks: seq<seq<TreeState>>, s: nat)
    requires s < |chunks|
    ensures Flattened(chunks[..s + 1]) == Flattened(chunks[..s]) + chunks[s]
  {
    assert chunks[..s + 1][..s] == chunks[..s];
  }

  // ----- the executor's checks -----

  /** Where a shard's deployment stands among all of them. */
  lemma {:induction false} PlaceOf(shards: seq<Shard>, s: nat, i: nat)
    requires s < |shards| && i < |shards[s].deployments|
    ensures SizeSum(shards[..s]) + i < SizeSum(shards)
    ensures AllDeployments(shards)[SizeSum(shards[..s]) + i] == shards[s].deployments[i]
    decreases |shards|
  {
    var last := |shards| - 1;
    if s < last {
      PlaceOf(shards[..last], s, i);
      assert shards[..last][..s] == shards[..s];
    }
  }

  lemma {:induction false} PlaceFound(shards: seq<Shard>, j: nat) returns (s: nat, i: nat)
    requires j < SizeSum(shards)
    ensures s < |shards| && i < |shards[s].deployments| && j == SizeSum(shards[..s]) + i
    decreases |shards|
  {
    var last := |shards| - 1;
    if j < SizeSum(shards[..last]) {
      s, i := PlaceFound(shards[..last], j);
      assert shards[..last][..s] == shards[..s];
    } else {
      s, i := last, j - SizeSum(shards[..last]);
    }
  }

  /** The manifest agrees with one planned deployment. */
  predicate Declared(plan: Plan, s: nat, i: nat, identify: Identify)
    requires s < |plan.shards| && i < |plan.shards[s].deployments|
  {
    var (place, d) := (SizeSum(plan.shards[..s]) + i, plan.shards[s].deployments[i]);
    place < |plan.manifest| && plan.manifest[place] == (d.state, identify(d.tx))
  }

  lemma ManifestByPlace(plan: Plan, identify: Identify)
    requires SizeSum(plan.shards) == |plan.manifest|
    ensures plan.manifest == Pairs(AllDeployments(plan.shards), identify) <==>
              (forall s, i :: 0 <= s < |plan.shards| && 0 <= i < |plan.shards[s].deployments| ==> Declared(plan, s, i, identify))
  {
    hide SizeSum, AllDeployments;
    var all := Pairs(AllDeployments(plan.shards), identify);
    if plan.manifest == all {
      forall s, i | 0 <= s < |plan.shards| && 0 <= i < |plan.shards[s].deployments| ensures Declared(plan, s, i, identify) {
        PlaceOf(plan.shards, s, i);
      }
    }
    if forall s, i :: 0 <= s < |plan.shards| && 0 <= i < |plan.shards[s].deployments| ==> Declared(plan, s, i, identify) {
      forall j | 0 <= j < |plan.manifest| ensures plan.manifest[j] == all[j] {
        var s, i := PlaceFound(plan.shards, j);
        PlaceOf(plan.shards, s, i);
        assert Declared(plan, s, i, identify);
      }
    }
  }

  predicate ShardDeclared(plan: Plan, s: nat, identify: Identify)
    requires s < |plan.shards|
  {
    forall i :: 0 <= i < |plan.shards[s].deployments| ==> Declared(plan, s, i, identify)
  }

  /** One deployment passes: declared in its place, and spending the expected source. */
  predicate Passes(plan: Plan, s: nat, i: nat, identify: Identify)
    requires s < |plan.shards| && i < |plan.shards[s].deployments|
  {
    Declared(plan, s, i, identify) && plan.shards[s].deployments[i].source == ExpectedSource(plan.shards[s], i, identify)
  }

  lemma PassesAt(plan: Plan, s: nat, i: nat, identify: Identify)
    requires s < |plan.shards| && i < |plan.shards[s].deployments| && SizeSum(plan.shards) == |plan.manifest|
    ensures var (place, d) := (SizeSum(plan.shards[..s]) + i, plan.shards[s].deployments[i]);
            && place < |plan.manifest|
            && (Passes(plan, s, i, identify) <==>
                  plan.manifest[place] == (d.state, identify(d.tx)) && d.source == ExpectedSource(plan.shards[s], i, identify))
  {
    PlaceOf(plan.shards, s, i);
  }

  lemma ShardByPassing(plan: Plan, s: nat, identify: Identify)
    requires s < |plan.shards|
    ensures ShardChecks(plan.shards[s], s, identify(plan.distribution), identify) && ShardDeclared(plan, s, identify) <==>
              && plan.shards[s].source == OutPoint(identify(plan.distribution), s)
              && plan.shards[s].treeCount == |plan.shards[s].deployments|
              && forall i :: 0 <= i < |plan.shards[s].deployments| ==> Passes(plan, s, i, identify)
  {
    hide Declared, ExpectedSource;
    if forall i :: 0 <= i < |plan.shards[s].deployments| ==> Passes(plan, s, i, identify) {
      forall i | 0 <= i < |plan.shards[s].deployments|
        ensures Declared(plan, s, i, identify) && plan.shards[s].deployments[i].source == ExpectedSource(plan.shards[s], i, identify)
      {
        assert Passes(plan, s, i, identify);
      }
    }
  }

  /** One shard of `execute_plan`'s loop. */
  method CheckShard(plan: Plan, s: nat, start: nat, identify: Identify) returns (ok: bool, world: nat)
    requires s < |plan.shards| && SizeSum(plan.shards) == |plan.manifest| && start == SizeSum(plan.shards[..s])
    ensures ok <==> ShardChecks(plan.shards[s], s, identify(plan.distribution), identify) && ShardDeclared(plan, s, identify)
    ensures ok ==> world == SizeSum(plan.shards[..s + 1])
  {
    hide SizeSum, AllDeployments, Pairs, Passes, ShardChecks, ShardDeclared;
    var shard := plan.shards[s];
    world := start;
    ShardByPassing(plan, s, identify);
    if shard.source != OutPoint(identify(plan.distribution), s) || shard.treeCount != |shard.deployments| { return false, world; }
    var expected := shard.source;
    for i := 0 to |shard.deployments|
      invariant world == start + i && expected == ExpectedSource(shard, i, identify)
      invariant forall j :: 0 <= j < i ==> Passes(plan, s, j, identify)
    {
      var planned := shard.deployments[i];
      PassesAt(plan, s, i, identify);
      if plan.manifest[world] != (planned.state, identify(planned.tx)) || planned.source != expected { return false, world; }
      world := world + 1;
      expected := OutPoint(identify(planned.tx), 1);
    }
    SizeNext(plan.shards, s);
    return true, world;
  }

  /** The source and manifest checks of `execute_plan`, walking the manifest with one running index. */
  method CheckPlan(plan: Plan, identify: Identify) returns (ok: bool)
    ensures ok <==> PlanChecks(plan, identify)
  {
    hide SizeSum, AllDeployments, Pairs, ShardChecks, Declared;
    if SizeSum(plan.shards) != |plan.manifest| { return false; }
    ManifestByPlace(plan, identify);
    var world := 0;
    NoSizes();
    assert plan.shards[..0] == [];
    for s := 0 to |plan.shards|
      invariant world == SizeSum(plan.shards[..s])
      invariant forall t :: 0 <= t < s ==> ShardChecks(plan.shards[t], t, identify(plan.distribution), identify)
      invariant forall t :: 0 <= t < s ==> ShardDeclared(plan, t, identify)
    {
      ok, world := CheckShard(plan, s, world, identify);
      if !ok { return; }
    }
    forall s, i | 0 <= s < |plan.shards| && 0 <= i < |plan.shards[s].deployments| ensures Declared(plan, s, i, identify) {
      assert ShardDeclared(plan, s, identify);
    }
    return true;
  }

  lemma NoSizes()
    ensures SizeSum([]) == 0
  {}

  lemma SizeNext(shards: seq<Shard>, s: nat)
    requires s < |shards|
    ensures SizeSum(shards[..s + 1]) == SizeSum(shards[..s]) + |shards[s].deployments|
  {
    assert shards[..s + 1][..s] == shards[..s];
  }
}
